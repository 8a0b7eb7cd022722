# MoneyMap, modelled in Dafny

MoneyMap is a personal financial-planning web application: a React client
(the planner, the fund-allocation and scenario pages, the visualization and
dashboard pages, the investments page, the risk questionnaire, settings,
login and password reset) and a Flask server (authentication, the database
helpers, a small stock predictor and the CSV/PDF export service). This
project models the calculations and the small state machines of those
pieces and proves what they promise.

One module per source file:

- FundAllocation (client/src/pages/FundAllocation.tsx): input clamping, the year-0 split into four buckets, the yearly growth loop, the emitted points.
- ScenarioComparison (client/src/pages/ScenarioComparison.tsx): the three preset plans, their yearly series and the card figures.
- FinancialVisualization (client/src/pages/FinancialVisualization.tsx): the shared risk scale (normaliser, label, colour, saved category), the second risk-loading branch, the money-growth chart, the budget breakdown.
- Dashboard (client/src/pages/Dashboard.tsx): the overview figures and the risk line.
- Investments (client/src/pages/Investments.tsx): the search and category filter, the watchlist test, the live-price merge, the category default, the CSV text.
- PortfolioPreview (client/src/components/PortfolioPreview.tsx): the pie data, the category totals, the mean risk and the validator.
- RiskAssessment (client/src/pages/RiskAssessment.tsx): the questionnaire and its score.
- Settings (client/src/pages/Settings.tsx): the field edits, the budget total and its message, the months to the goal.
- Login (client/src/pages/Login.tsx): the failed-attempt lockout kept in localStorage.
- ResetPassword (client/src/pages/ResetPassword.tsx): the token check, the form validation and the screen shown.
- PlannerApp (client/src/App.tsx): the planner form, its recommendations, its initialisation and the route guards.
- StandaloneApp (src/App.tsx): the stand-alone planner.
- Navbar (client/src/components/Navbar.tsx): the initials, the display name and the colour hash.
- StockPredictor (server/ml_models/stock_predictor.py): the risk score, the return prediction, the recommendations and the lookup.
- AuthSystem (server/auth_system.py): credentials, sign-up checks, login checks and the token blocklist.
- DbUtils (server/db_utils.py): the partial-update builders, decryption and the shaping of user records.
- ExportService (server/exports/service.py): table selection, the query clauses and the conversion of rows.
- PdfSummary (server/exports/pdf_writer.py): the summary totals and the period line.

Common, Text and Parse hold the shared helpers: rounding and clamping over
`real`, JavaScript's `||` and `??`, ASCII case mapping, substring search,
split and join, and a decimal-number grammar shared by `Number()`,
`parseFloat`, `parseInt` and Python's `float()` and `int()`.

Numbers of JavaScript and Python are `real`; `Math.round(x)` is
`floor(x + 0.5)`; Python's `round(x, 1)` is stated within 0.05. The
32-bit shift of the colour hash is written out with explicit wrap-around.
What the code fetches, reads from the database or from localStorage, and
what bcrypt, Fernet or the clock answer, is passed in as a parameter:
server replies are datatypes of their outcomes, the database is the
statements the code would execute (or, for the export, a map from table to
rows), decryption is a keyring from tokens to plaintexts, and encryption
is the token it produced. Stateful React pages are classes whose fields
are the page's state, with a method per handler.

## Model

| member | source | states |
|---|---|---|
| FinancialVisualization.Normalize | client/src/pages/FinancialVisualization.tsx:202-224 | every stored risk value lands on 1..10; null or undefined gives 5; a number is clamped to 1..10 |
| FinancialVisualization.NormalizeNumericString | client/src/pages/FinancialVisualization.tsx:210-214 | a string that Number() reads as x normalises exactly as the number x does |
| FinancialVisualization.NormalizeBlank | client/src/pages/FinancialVisualization.tsx:210-214 | an empty or blank string is Number 0, so it lands on 1 rather than on the default 5 |
| FinancialVisualization.NormalizeCategoryName | client/src/pages/FinancialVisualization.tsx:216-220 | a string whose lower-case form is conservative, moderate or aggressive scores 3, 6 or 9 |
| FinancialVisualization.NormalizeOtherString | client/src/pages/FinancialVisualization.tsx:216-223 | any other string that is not a number falls back to 5 |
| FinancialVisualization.NormalizeIdempotent | client/src/pages/FinancialVisualization.tsx:205-208 | normalising a value that is already on the scale leaves it unchanged |
| FinancialVisualization.RiskLabel | client/src/pages/FinancialVisualization.tsx:226-230 | 'Conservative' exactly up to 3, 'Moderate' exactly above 3 up to 7, 'Aggressive' exactly above 7 |
| FinancialVisualization.RiskColor | client/src/pages/FinancialVisualization.tsx:232-236 | green exactly up to 3, amber exactly above 3 up to 7, red exactly above 7 |
| FinancialVisualization.MapRiskValue | client/src/pages/FinancialVisualization.tsx:405-409 | 'conservative' exactly up to 3, 'moderate' exactly above 3 up to 7, 'aggressive' exactly above 7 |
| FinancialVisualization.SharedThresholds | client/src/pages/FinancialVisualization.tsx:226-236 | the label, the colour and the saved category pick the same band for every score |
| FinancialVisualization.LabelLowersToSaved | client/src/pages/FinancialVisualization.tsx:405-409 | lower-casing the label shown for a score gives exactly the category saved for it |
| FinancialVisualization.MapRiskRoundTrip | client/src/pages/FinancialVisualization.tsx:405-409 | saving a score as its category name and normalising that name back gives the same category |
| FinancialVisualization.CategoryNamesAreLowerCase | client/src/pages/FinancialVisualization.tsx:405-409 | the three saved category names are already lower case |
| FinancialVisualization.LoadSavedRisk | client/src/pages/FinancialVisualization.tsx:318-335 | the second loading branch: a missing or falsy value keeps the current score; a number is taken as it is; exactly 'conservative', 'moderate' and 'aggressive' give 2, 5 and 9; any other string gives its parseInt result when that is an integer in 1..10, and keeps the current score otherwise |
| FinancialVisualization.RiskAfterLoad | client/src/pages/FinancialVisualization.tsx:262-335 | a saved string always leaves the score on 1..10 after both loading steps |
| FinancialVisualization.ConservativeMappingsDiverge | client/src/pages/FinancialVisualization.tsx:322-323 | the two loaders disagree on 'conservative': normalising gives 3, the second branch gives 2 |
| FinancialVisualization.CapitalisedNameKeepsNormalized | client/src/pages/FinancialVisualization.tsx:321-333 | the second branch is case-sensitive: 'Conservative' keeps the normalised 3 |
| FinancialVisualization.SavedNumberNotClamped | client/src/pages/FinancialVisualization.tsx:320-321 | a saved number such as 15 is taken unclamped by the second branch |
| FinancialVisualization.ExpectedReturn | client/src/pages/FinancialVisualization.tsx:40-44 | the annual return is 5%, 8% or 12%, each exactly on its risk band |
| FinancialVisualization.CompoundGrows | client/src/pages/FinancialVisualization.tsx:59-61 | with no negative balance, rate or deposit, the compounded balance never falls from month to month |
| FinancialVisualization.GrowMonths | client/src/pages/FinancialVisualization.tsx:59-61 | the month loop carries a balance of d months of compounding from 0 to one of d + n months, for any n |
| FinancialVisualization.MoneyGrowthChart | client/src/pages/FinancialVisualization.tsx:46-64 | the projection has seven points, for 'Start' and years 5 to 30; point i is the rounded balance after 60·i months of compounding from 0 |
| FinancialVisualization.ChartNondecreasing | client/src/pages/FinancialVisualization.tsx:50-64 | the projection starts at 0 and, with a surplus that is not negative, never decreases |
| FinancialVisualization.BudgetPercents | client/src/pages/FinancialVisualization.tsx:351-356 | six percentages, one per category: a saved (non-null) percent is used as saved, and a null one takes that category's default of 30/15/15/10/10/20 |
| FinancialVisualization.BudgetAmounts | client/src/pages/FinancialVisualization.tsx:358-363 | each category's amount is the expenses times its percentage over 100 |
| FinancialVisualization.BudgetAmountsSum | client/src/pages/FinancialVisualization.tsx:358-363 | the amounts add up to the expenses times the total percentage over 100 |
| FinancialVisualization.DefaultBudgetSplitsExpenses | client/src/pages/FinancialVisualization.tsx:351-363 | the defaults add up to 100%, so the default breakdown splits the expenses exactly |
| FinancialVisualization.LoadBudgetPref | client/src/pages/FinancialVisualization.tsx:298-305 | a falsy saved value becomes null, any other is kept |
| FinancialVisualization.SavedZeroShowsDefault | client/src/pages/FinancialVisualization.tsx:299 | a saved 0% housing share does not survive loading, and the default 30% is shown |
| FinancialVisualization.LoadFinancialData | client/src/pages/FinancialVisualization.tsx:281-315 | the monthly income is the annual one over 12; the expenses are the saved ones when truthy, else 70% of the income; the target is six months of expenses; a successful request takes the savings when truthy (else 0) and loads the saved budget with falsy percents as null; a failed request keeps the budget state and sets savings to 0 |
| FinancialVisualization.EstimatedFigures | client/src/pages/FinancialVisualization.tsx:306-347 | without saved expenses, the surplus is 30% of the monthly income and the target is 35% of the annual income |
| Dashboard.Figures | client/src/pages/Dashboard.tsx:68-72 | the expenses are assumed to be 70% of the monthly income; the surplus is 30% of it; the target is 35% of the annual income |
| Dashboard.TargetAgreesWithVisualization | client/src/pages/Dashboard.tsx:68-72 | without saved expenses, the dashboard shows the same emergency target as the visualization page |
| Dashboard.RiskLine | client/src/pages/Dashboard.tsx:112 | a risk line appears exactly when risk_tolerance is truthy; it pairs the normalised score (1..10) with that score's label |
| FundAllocation.ValidRisk | client/src/pages/FundAllocation.tsx:52 | the risk used is on 1..10; an unset (0) risk becomes 5; any other is clamped |
| FundAllocation.ValidSavings | client/src/pages/FundAllocation.tsx:53 | the savings used are never negative and never less than those entered; savings that are not negative are used as entered, and negative savings become 0 |
| FundAllocation.ValidHorizon | client/src/pages/FundAllocation.tsx:55 | the horizon is 1..30 years; an unset (0) horizon becomes 10; a horizon in range is kept, one above 30 becomes 30 and a negative one becomes 1 |
| FundAllocation.GrowthRateBounds | client/src/pages/FundAllocation.tsx:66-69 | over the risk scale, the medium rate stays in 6.2–8% and the long rate in 8.4–12%; short < medium < long |
| FundAllocation.Emit | client/src/pages/FundAllocation.tsx:108-115 | each point carries its year, and every figure is the rounding of a value floored at 0, so none is negative |
| FundAllocation.CalculateAllocation | client/src/pages/FundAllocation.tsx:50-118 | one point for each year 0..horizon; point y is the rounded year-y balances of the yearly recurrence, started from the year-0 split of the savings |
| FundAllocation.YearZeroSplit | client/src/pages/FundAllocation.tsx:81-88 | at year 0 the emergency fund takes 20% of the savings, up to 18000; the three buckets take (35 + 30·stock share)% of the rest, never more than the rest |
| FundAllocation.OpeningSplit | client/src/pages/FundAllocation.tsx:81-88 | the year-0 branch produces exactly the opening split of the contributions for that risk |
| FundAllocation.YearGrowth | client/src/pages/FundAllocation.tsx:89-100 | a later year's branch produces exactly one growth step of the four carried balances for that contribution, risk and year |
| FundAllocation.GrowBuckets | client/src/pages/FundAllocation.tsx:89-100 | after a later year's step the emergency fund is within that year's cap of 18000·(1 + 0.02·year) |
| FundAllocation.BucketsAt | client/src/pages/FundAllocation.tsx:77-100 | the balances carried after any year, year 0 included, keep the emergency fund within that year's cap |
| FundAllocation.EmergencyCapped | client/src/pages/FundAllocation.tsx:91-94 | after year 0, the emergency fund never exceeds 18000·(1 + 0.02·year) |
| FundAllocation.EmergencyWithinCap | client/src/pages/FundAllocation.tsx:83-94 | in every year, including year 0, the emergency fund is within that year's cap |
| FundAllocation.BucketsNonNegative | client/src/pages/FundAllocation.tsx:77-100 | with savings and contributions that are not negative, no carried balance is ever negative |
| FundAllocation.GrowthStepNonNegative | client/src/pages/FundAllocation.tsx:91-99 | one year's growth step never shrinks the short, medium or long bucket, and keeps the emergency fund non-negative |
| FundAllocation.BucketsNondecreasing | client/src/pages/FundAllocation.tsx:89-100 | with a contribution that is not negative, no bucket shrinks from one year to the next |
| FundAllocation.TotalNearFieldSum | client/src/pages/FundAllocation.tsx:110-115 | the total is rounded once from the unrounded sum, so it is within 2 of the sum of the four rounded figures |
| Investments.BySearch | client/src/pages/Investments.tsx:87-93 | the search filter never lengthens the list |
| Investments.ByCategory | client/src/pages/Investments.tsx:95-97 | the category filter never lengthens the list |
| Investments.BySearchThenCategory | client/src/pages/Investments.tsx:84-100 | running the search filter and then the category filter keeps exactly the stocks that pass both tests, in their original order |
| Investments.BySearchOnly | client/src/pages/Investments.tsx:87-93 | with only a search term, the result is the stocks whose ticker, name or sector contains the term, ignoring case |
| Investments.ByCategoryOnly | client/src/pages/Investments.tsx:95-97 | with only a category, the result is the stocks of that category |
| Investments.SelectAllIsIdentity | client/src/pages/Investments.tsx:84-99 | with no search term and category 'all', the list is shown unchanged |
| Investments.ByCategoryAppend | client/src/pages/Investments.tsx:96 | the category filter distributes over concatenation |
| Investments.FilterStocks | client/src/pages/Investments.tsx:84-100 | filterStocks yields exactly the stocks that pass both the search and the category test, in their original order |
| Investments.SubsequenceDropHead | client/src/pages/Investments.tsx:88-96 | dropping the first of the kept stocks keeps the order-preserving embedding |
| Investments.SubsequenceWeaken | client/src/pages/Investments.tsx:88-96 | putting a stock in front of the input keeps the embedding |
| Investments.SelectedIsSubsequence | client/src/pages/Investments.tsx:84-100 | the filtered list is the input with some stocks dropped and the rest in their original order |
| Investments.SelectedMembership | client/src/pages/Investments.tsx:84-100 | a stock is shown if and only if it is in the list and passes both tests |
| Investments.SelectedIdempotent | client/src/pages/Investments.tsx:84-100 | filtering the filtered list again changes nothing |
| Investments.IsInWatchlist | client/src/pages/Investments.tsx:280-282 | true exactly when some watchlist item has that stock_ticker |
| Investments.FindPrice | client/src/pages/Investments.tsx:116 | the lookup finds the first update for the ticker, or none when no update names it |
| Investments.PercentChange | client/src/pages/Investments.tsx:123 | a percent change exists exactly when the old price is not 0, and applying it to the old price gives the new one |
| Investments.Merge | client/src/pages/Investments.tsx:114-127 | one stock keeps its identity; without an update it is unchanged; with one, its old price becomes previous_price and its change is consistent with the two prices |
| Investments.UpdatePrices | client/src/pages/Investments.tsx:114-127 | every stock keeps its identity and its position; a stock without an update is unchanged; one with an update takes the first update's price, and the old price moves to previous_price, with the change as the difference and the percent change computed from the two prices |
| Investments.UpdatePricesConsistent | client/src/pages/Investments.tsx:118-124 | after a merge, every stock's price_change equals its current price minus its previous price |
| Investments.PercentOnlyForNonzeroOldPrice | client/src/pages/Investments.tsx:123 | a matched stock gets a finite percent change exactly when its old price was not 0 |
| Investments.DefaultCategory | client/src/pages/Investments.tsx:149 | the category is never empty; a truthy category is kept; otherwise it is 'crypto' exactly when the ticker contains BTC or ETH, and 'stocks' exactly when it contains neither |
| Investments.QuoteAll | client/src/pages/Investments.tsx:354 | every cell is wrapped in double quotes |
| Investments.CsvLines | client/src/pages/Investments.tsx:354 | one line per row: its quoted cells joined by commas |
| Investments.CsvLineCount | client/src/pages/Investments.tsx:325-354 | when no cell holds a newline, the export has exactly one line per row |
| Investments.QuoteAddsTwoQuotes | client/src/pages/Investments.tsx:354 | cells are not escaped: quoting adds exactly two quote characters, whatever the cell holds |
| PortfolioPreview.ChartData | client/src/components/PortfolioPreview.tsx:33-37 | one pie slice per asset, in order, named by its ticker, valued at its allocation, with its category |
| PortfolioPreview.Allocations | client/src/components/PortfolioPreview.tsx:49 | the asset allocations, in order |
| PortfolioPreview.ChartValues | client/src/components/PortfolioPreview.tsx:33-37 | the slice values, in order |
| PortfolioPreview.ChartSumsToTotal | client/src/components/PortfolioPreview.tsx:33-49 | the pie slices add up to the total allocation that the validator checks |
| PortfolioPreview.TotalIsSum | client/src/components/PortfolioPreview.tsx:49 | the total allocation is the sum of the asset allocations |
| PortfolioPreview.CategoryTotalsSumToTotal | client/src/components/PortfolioPreview.tsx:39-49 | when every asset is in one of the four categories, the category totals add up to the total allocation |
| PortfolioPreview.AbsentCategorySum | client/src/components/PortfolioPreview.tsx:39-42 | a category that no asset has sums to 0 |
| PortfolioPreview.CategoryTotals | client/src/components/PortfolioPreview.tsx:39-42 | the reduce produces one key for each category present, mapped to the summed allocation of its assets |
| PortfolioPreview.RiskScores | client/src/components/PortfolioPreview.tsx:45 | the assets' risk scores, in order |
| PortfolioPreview.AverageRisk | client/src/components/PortfolioPreview.tsx:44-46 | the mean risk score times the number of assets is the sum of the scores; with no assets it is 0 |
| PortfolioPreview.SumBounds | client/src/components/PortfolioPreview.tsx:45 | a sum of n scores, each within [lo, hi], lies within [n·lo, n·hi] |
| PortfolioPreview.AverageRiskBounds | client/src/components/PortfolioPreview.tsx:44-46 | the mean lies between the lowest and the highest risk score |
| PortfolioPreview.ValidatePortfolio | client/src/components/PortfolioPreview.tsx:48-70 | an error exactly when the total is more than 0.01 away from 100; valid exactly when there is no error; warnings, in order, for crypto above 10, stocks truthy and below 20, and a mean risk above 8 |
| RiskAssessment.Questions | client/src/pages/RiskAssessment.tsx:16-71 | six questions with three scored options each, in the questionnaire's order |
| RiskAssessment.QuestionsWellFormed | client/src/pages/RiskAssessment.tsx:16-71 | every option scores between 1 and 9, and the six question ids are distinct |
| RiskAssessment.QuestionIds | client/src/pages/RiskAssessment.tsx:16-71 | the six ids, position for position with the questions |
| RiskAssessment.RiskScoreOf | client/src/pages/RiskAssessment.tsx:97-99 | the submitted score is the recorded total over 6, rounded to the nearest integer with halves up |
| RiskAssessment.SumOverBounds | client/src/pages/RiskAssessment.tsx:97 | summing answers each within lo..hi gives at most hi per question, and at least lo per question once all are answered |
| RiskAssessment.TotalScoreOfSix | client/src/pages/RiskAssessment.tsx:97 | the total is the sum of the six recorded answers, an unanswered question adding nothing |
| RiskAssessment.RiskScoreRange | client/src/pages/RiskAssessment.tsx:97-99 | with option scores of 1..9 the score is at most 9, and at least 1 once all six questions are answered |
| RiskAssessment.Questionnaire.Progress | client/src/pages/RiskAssessment.tsx:133 | the progress bar is above 0 and at most 100, and reaches 100 exactly on the last question |
| RiskAssessment.Questionnaire.HandleAnswer | client/src/pages/RiskAssessment.tsx:83-99 | the option's score is recorded under the current question; before the last question it moves on; on the last it submits the score of the answers recorded before this choice |
| RiskAssessment.Questionnaire.Previous | client/src/pages/RiskAssessment.tsx:233 | one question back, never below the first; the answers are kept |
| RiskAssessment.IntendedRiskScoreInRange | client/src/pages/RiskAssessment.tsx:93-99 | the corrected score counts the last choice too, and once the first five are answered it lies in 1..9 |
| RiskAssessment.LastAnswerDropped | client/src/pages/RiskAssessment.tsx:83-99 | with the top option recorded on the first five questions, the last click submits 7, while the score that counts its top option is 9 |
| ScenarioComparison.Presets | client/src/pages/ScenarioComparison.tsx:24-46 | three plans, in order, each starting with an empty series |
| ScenarioComparison.PresetReturns | client/src/pages/ScenarioComparison.tsx:50 | the plans grow at 6.4%, 8.8% and 11.2% a year; the card's Expected Return is the same rate as a percentage |
| ScenarioComparison.Series | client/src/pages/ScenarioComparison.tsx:52-57 | one point per year 0..horizon, none for a negative horizon; point y is the rounded value after y years of growth plus twelve contributions |
| ScenarioComparison.FillSeries | client/src/pages/ScenarioComparison.tsx:48-58 | the loop pushes exactly that series |
| ScenarioComparison.GenerateScenarios | client/src/pages/ScenarioComparison.tsx:23-61 | the three plans, in order, each with its own series filled in |
| ScenarioComparison.FinalValue | client/src/pages/ScenarioComparison.tsx:65 | the last point's value, or 0 when the series is empty |
| ScenarioComparison.Gains | client/src/pages/ScenarioComparison.tsx:180-181 | the gains and the total contributed add up to the final value |
| ScenarioComparison.ReturnPercent | client/src/pages/ScenarioComparison.tsx:182 | none exactly when the total contributed is 0; otherwise the percentage times the total contributed is 100 times the gains |
| ScenarioComparison.FinalValueOfSeries | client/src/pages/ScenarioComparison.tsx:52-65 | a generated plan's final value is its value after the whole horizon, rounded |
| ScenarioComparison.CarriedGap | client/src/pages/ScenarioComparison.tsx:52-55 | a plan with a rate and a contribution no lower never falls behind, and is ahead by at least 12 times the extra contribution after a year |
| ScenarioComparison.GrowthWidensGap | client/src/pages/ScenarioComparison.tsx:54 | one year's growth never narrows the gap between a larger balance at a higher rate and a smaller one |
| ScenarioComparison.FinalValuesIncrease | client/src/pages/ScenarioComparison.tsx:23-65 | with savings that are not negative and a horizon of at least one year, Conservative ends below Moderate, and Moderate below Aggressive |
| StockPredictor.RiskScore | server/ml_models/stock_predictor.py:195-212 | the score is the weighted beta and volatility figure rounded to one decimal; with beta and volatility not negative it lies in 0..10 |
| StockPredictor.ReturnCap | server/ml_models/stock_predictor.py:231-236 | the cap is 12 for beta below 0.8, 40 for beta above 1.5, and 20 otherwise |
| StockPredictor.PredictReturns | server/ml_models/stock_predictor.py:215-238 | the prediction never exceeds its beta's cap, and is the capped estimate rounded to one decimal |
| StockPredictor.CategoryFor | server/ml_models/stock_predictor.py:246-252 | risk tolerance up to 3 reads the conservative list, up to 7 the moderate one, and above 7 the aggressive one |
| StockPredictor.CategoryForMatchesClient | server/ml_models/stock_predictor.py:246-252 | the server picks the list by the same thresholds and names as the client's saved risk category |
| StockPredictor.AssetCategory | server/ml_models/stock_predictor.py:262-270 | each of crypto, etf, bonds and stocks is given exactly when its test holds and the earlier tests fail |
| StockPredictor.Enrich | server/ml_models/stock_predictor.py:258-270 | one entry gets its predicted return, its risk score and its asset category, and no other field changes |
| StockPredictor.EnrichIdempotent | server/ml_models/stock_predictor.py:258-270 | the figures the loop writes are not inputs to the predictors, so enriching an entry twice is the same as enriching it once |
| StockPredictor.EnrichAll | server/ml_models/stock_predictor.py:258-270 | the loop enriches each entry, in place, keeping the list's length and order |
| StockPredictor.EnrichEach | server/ml_models/stock_predictor.py:258-270 | the loop replaces each entry by its enriched form, in place, which is exactly the enriched list |
| StockPredictor.Insert | server/ml_models/stock_predictor.py:273 | inserting an entry adds exactly that entry |
| StockPredictor.SortByReturn | server/ml_models/stock_predictor.py:273 | sorting keeps exactly the same entries |
| StockPredictor.InsertSorted | server/ml_models/stock_predictor.py:273 | inserting into a list sorted highest return first keeps it sorted |
| StockPredictor.SortByReturnSorted | server/ml_models/stock_predictor.py:273 | the sorted list has the highest predicted return first |
| StockPredictor.SortSortedIsIdentity | server/ml_models/stock_predictor.py:273 | sorting a list already in descending order of predicted return leaves it unchanged |
| StockPredictor.InsertStable | server/ml_models/stock_predictor.py:273 | inserting an entry passes only entries with a higher return, so among the entries of any one return it comes first, ahead of those already placed |
| StockPredictor.SortStable | server/ml_models/stock_predictor.py:273 | the sort is stable: for every return value, the entries with that value come out in the order they went in |
| StockPredictor.RecommendSortedPermutation | server/ml_models/stock_predictor.py:241-275 | the recommendations are a permutation of the enriched list, highest predicted return first |
| StockPredictor.RecommendMembers | server/ml_models/stock_predictor.py:258-275 | an entry is recommended exactly when it is in the enriched list |
| StockPredictor.EnrichAllOfEnriched | server/ml_models/stock_predictor.py:258-270 | enriching a list of entries that are already enriched changes nothing |
| StockPredictor.RecommendTwice | server/ml_models/stock_predictor.py:241-275 | a second call on the list the first call left behind returns the same list |
| StockPredictor.CategorizeStock | server/ml_models/stock_predictor.py:278-287 | Conservative exactly for beta below 0.8 with volatility below 0.25; Aggressive exactly for beta above 1.2 with volatility above 0.5; Moderate otherwise |
| StockPredictor.CategoriesDisjoint | server/ml_models/stock_predictor.py:282-285 | no stock can meet both the Conservative and the Aggressive test |
| StockPredictor.FirstTickerMatch | server/ml_models/stock_predictor.py:296-297 | the first entry whose ticker matches ignoring case, or none when no ticker matches |
| StockPredictor.PlainEntryIsStock | server/ml_models/stock_predictor.py:262-270 | an entry with no crypto, ETF or bond marker is categorised as stocks |
| StockPredictor.ConservativeArePlain | server/ml_models/stock_predictor.py:16-73 | no shipped conservative entry carries a marker |
| StockPredictor.ModerateArePlain | server/ml_models/stock_predictor.py:75-132 | no shipped moderate entry carries a marker |
| StockPredictor.AggressiveArePlain | server/ml_models/stock_predictor.py:134-191 | no shipped aggressive entry carries a marker |
| StockPredictor.ShippedEntriesAreStocks | server/ml_models/stock_predictor.py:16-191 | every shipped entry is categorised as stocks, so the crypto, etf and bonds branches never fire on the catalogue |
| StockPredictor.StockCatalog.GetRecommendations | server/ml_models/stock_predictor.py:241-275 | returns the recommendations for the chosen list and stores them in its place; the other two lists are unchanged |
| StockPredictor.StockCatalog.GetStockDetails | server/ml_models/stock_predictor.py:290-309 | none, with nothing changed, when no ticker matches; otherwise the first match with its category, judged by the upper-cased query, written back into the catalogue |
| StockPredictor.StockCatalog.StoreAt | server/ml_models/stock_predictor.py:296-307 | the entry at a position of the lookup order is replaced in whichever list holds it; every other entry and each list's length stay the same |
| Settings.Blank | client/src/pages/Settings.tsx:170 | an empty string is stored as null; any other value as it is |
| Settings.WithField | client/src/pages/Settings.tsx:167-172 | only the edited field changes; it holds the value with an empty string read as null; every other field keeps its value |
| Settings.WithFieldTwice | client/src/pages/Settings.tsx:167-172 | editing a field twice keeps only the second value |
| Settings.NumberInput | client/src/pages/Settings.tsx:624 | a number input stores null exactly when parseFloat fails or gives 0; otherwise the parsed number, never 0 |
| Settings.IntegerInput | client/src/pages/Settings.tsx:328 | the age input stores null exactly when parseInt fails or gives 0; otherwise the parsed integer |
| Settings.TextOrNull | client/src/pages/Settings.tsx:547 | the goal textarea stores null exactly for the empty text, and any other text as it is |
| Settings.BudgetTotalMatchesVisualization | client/src/pages/Settings.tsx:725-732 | with all six percentages set, the total shown is the total the visualization page splits the expenses by |
| Settings.BudgetTotalIgnoresOtherFields | client/src/pages/Settings.tsx:725-732 | editing a field other than the six percentages leaves the total as it was |
| Settings.SumFieldsAgree | client/src/pages/Settings.tsx:732 | two records that agree on the summed fields have the same total |
| Settings.BudgetMessage | client/src/pages/Settings.tsx:749-751 | no note exactly at 100; above 100 the over-budget note; below 100 the under-budget note |
| Settings.MonthsToGoal | client/src/pages/Settings.tsx:582-594 | a timeline exactly when the target is truthy and the contribution is a positive number; its months are the fewest whose contributions reach the target |
| Settings.WithFoundation | client/src/pages/Settings.tsx:90-94 | the profile takes current_savings and monthly_expenses from the fetched preferences, a missing one as null, and keeps every other field |
| Settings.SettingsPage.HandleInputChange | client/src/pages/Settings.tsx:167-172 | the preferences become the edited record; the profile is unchanged |
| Settings.SettingsPage.HandleProfileInputChange | client/src/pages/Settings.tsx:174-179 | the profile becomes the edited record; the preferences are unchanged |
| Settings.SettingsPage.FetchPreferences | client/src/pages/Settings.tsx:86-94 | the preferences become the fetched record, and the profile takes its two financial-foundation fields |
| Login.ParsedOfShown | client/src/pages/Login.tsx:142 | a count the page writes to storage reads back as the same count, NaN included |
| Login.Increment | client/src/pages/Login.tsx:140 | a failure adds one to a numeric count; NaN stays NaN |
| Login.OnMount | client/src/pages/Login.tsx:33-57 | nothing happens unless both entries are stored and non-empty; the entries are cleared exactly when the stamp is more than 24 hours old; otherwise the stored count is restored |
| Login.AfterFailure | client/src/pages/Login.tsx:142-143 | a failure writes the new count and the current time, and leaves every other storage entry alone |
| Login.Cleared | client/src/pages/Login.tsx:135-136 | both entries are removed, and every other entry is kept |
| Login.FailureWindow | client/src/pages/Login.tsx:33-57 | a count written at time t is restored by a mount up to exactly 24 hours later, and cleared by any later mount, so each failure restarts the window |
| Login.ClearedMountKeeps | client/src/pages/Login.tsx:44-46 | after a success or an expiry, the next mount finds nothing to restore |
| Login.Remaining | client/src/pages/Login.tsx:151 | the remaining attempts are a number exactly when the count is, and then 5 less the count |
| Login.FailureCountdown | client/src/pages/Login.tsx:140-151 | from a count below 4, a failure shows the banner with 1 to 4 attempts left; the hint appears from the third failure; the fifth failure redirects |
| Login.LoginPage.Mount | client/src/pages/Login.tsx:33-57 | the mount keeps, clears or restores as above, and a restored count of 5 or more sends the user to /forgot-password |
| Login.LoginPage.HandleInputChange | client/src/pages/Login.tsx:112-123 | the field takes the value and any error is cleared; nothing else changes |
| Login.LoginPage.HandleSubmit | client/src/pages/Login.tsx:125-159 | a success resets the count, clears storage and goes to /dashboard; a failure adds one, restamps, and either redirects at 5 or shows the remaining attempts; an exception only shows the generic error; loading ends in every case |
| Login.LoginPage.RecordFailure | client/src/pages/Login.tsx:138-152 | a failure adds one to the count and stores it with the time; at 5 or more it sends the user to /forgot-password and leaves the error, below 5 it shows the attempts left and stays |
| ResetPassword.MessageOr | client/src/pages/ResetPassword.tsx:43 | the server's message when it is a non-empty string, otherwise the fallback |
| ResetPassword.Validate | client/src/pages/ResetPassword.tsx:59-67 | no error exactly when the passwords agree and have at least 8 characters; a mismatch is reported before the length |
| ResetPassword.ResetPasswordPage.Mount | client/src/pages/ResetPassword.tsx:18-53 | without a token the link is invalid and nothing is sent; otherwise the token is sent once, and the reply marks the link valid with the email, or invalid with the server's or the network message |
| ResetPassword.ResetPasswordPage.SetPassword | client/src/pages/ResetPassword.tsx:204 | the password field takes the value; nothing else changes |
| ResetPassword.ResetPasswordPage.SetConfirmPassword | client/src/pages/ResetPassword.tsx:217 | the confirmation field takes the value; nothing else changes |
| ResetPassword.ResetPasswordPage.HandleSubmit | client/src/pages/ResetPassword.tsx:55-102 | a request goes out exactly when validation passes; success clears the login lockout entries and schedules the redirect; a rejection or a network error only shows its message; loading ends in every case |
| ResetPassword.ResetPasswordPage.SendReset | client/src/pages/ResetPassword.tsx:69-101 | one request with the token and password goes out; success marks the reset done, clears both lockout entries and schedules the redirect; a rejection shows the server's message or the default, a network error the network message, and neither touches storage; loading ends in every case |
| ResetPassword.ResetPasswordPage.CurrentView | client/src/pages/ResetPassword.tsx:104-144 | verifying exactly while the token check is pending, invalid exactly when it failed, the success screen exactly after a reset, else the form |
| PlannerApp.NumberOrZero | client/src/App.tsx:42 | a parsed number is kept; input that does not parse becomes 0 |
| PlannerApp.UpdateField | client/src/App.tsx:41-43 | the edited figure takes the parsed input, or 0; the other two figures are unchanged |
| PlannerApp.InvalidInputBlocksSubmit | client/src/App.tsx:42-45 | a field whose input does not parse to a positive number leaves the form invalid, whatever the other fields hold |
| PlannerApp.PositiveInputsValidate | client/src/App.tsx:42-45 | entering positive numbers in all three fields makes the form valid |
| PlannerApp.Recommend | client/src/App.tsx:182-212 | the emergency fund is six months of expenses; the amount available is the savings beyond it, or 0; the monthly investment is the surplus, or 0 |
| PlannerApp.RecommendationsWithinMeans | client/src/App.tsx:182-212 | for a valid form, the emergency fund is positive, and neither recommendation reaches the savings or the income |
| PlannerApp.Initial | client/src/App.tsx:407-436 | the monthly income is the annual one over 12; the expenses are the saved ones when truthy, else 70% of that income; the savings are the saved ones or 0, and 0 when the request failed |
| PlannerApp.InitialAgreesWithVisualization | client/src/App.tsx:407-436 | the planner starts from exactly the figures the visualization page loads from the same responses |
| PlannerApp.Planner.FetchFinancialData | client/src/App.tsx:394-443 | with a user and a token and not yet initialised, one request is sent and its figures are loaded; otherwise nothing changes and nothing is sent |
| PlannerApp.Planner.HandleInputChange | client/src/App.tsx:41-43 | the figures become the edited record; the step is unchanged |
| PlannerApp.Planner.NextStep | client/src/App.tsx:445 | the step becomes 1; the figures are unchanged |
| PlannerApp.Planner.PrevStep | client/src/App.tsx:446 | the step becomes 0; the figures are unchanged |
| PlannerApp.Planner.Shown | client/src/App.tsx:451 | step 0 shows the form; any other step shows the recommendations |
| PlannerApp.InitializeTwice | client/src/App.tsx:391-443 | running the effect twice leaves the figures of the first run and sends a single request |
| PlannerApp.ProtectedRoute | client/src/App.tsx:462-481 | a spinner while loading; the page when signed in; otherwise a redirect to /login |
| PlannerApp.PublicRoute | client/src/App.tsx:484-503 | a spinner while loading; the page when signed out; otherwise a redirect to /dashboard |
| PlannerApp.GuardsAreComplementary | client/src/App.tsx:462-503 | once loading is over, exactly one of a protected and a public page shows its content |
| StandaloneApp.FormSummary | src/App.tsx:58-61 | the summary shows the monthly surplus, and the whole savings as available |
| StandaloneApp.SummaryOverstatesAvailable | src/App.tsx:58-96 | with any expenses and positive savings, the summary shows more available than the recommendation card |
| StandaloneApp.App.HandleInputChange | src/App.tsx:17-19 | the figures become the edited record; the step is unchanged |
| StandaloneApp.App.NextStep | src/App.tsx:127 | the step becomes 1; the figures are unchanged |
| StandaloneApp.App.PrevStep | src/App.tsx:128 | the step becomes 0; the figures are unchanged |
| Navbar.CharAt0 | client/src/components/Navbar.tsx:40 | the first character of a word, or the empty string for an empty word |
| Navbar.FirstChars | client/src/components/Navbar.tsx:38-41 | at most one character per word |
| Navbar.Prefix | client/src/components/Navbar.tsx:43 | slice(0, n) is the longest prefix of at most n characters |
| Navbar.Initials | client/src/components/Navbar.tsx:37-44 | the initials are at most two characters |
| Navbar.FirstCharsOfWords | client/src/components/Navbar.tsx:38-41 | with no empty words there is exactly one first character per word, in order |
| Navbar.InitialsOfJoin | client/src/components/Navbar.tsx:37-44 | splitting a name joined by single spaces gives back its words, so the initials come from those words |
| Navbar.InitialsOfWords | client/src/components/Navbar.tsx:37-44 | a one-word name gives its upper-cased first letter; a longer name gives the upper-cased first letters of its first two words |
| Navbar.LeadingInitials | client/src/components/Navbar.tsx:40-43 | the two-character slice of the upper-cased first letters holds the first one or two words' letters |
| Navbar.PrefixTwo | client/src/components/Navbar.tsx:43 | the slice of two characters keeps the first one or two |
| Navbar.InitialsOfEmptyName | client/src/components/Navbar.tsx:37-44 | the empty name has no initials |
| Navbar.DisplayName | client/src/components/Navbar.tsx:46-50 | the full name when it is non-empty, else the username when it is non-empty, else 'User'; never empty |
| Navbar.Colors | client/src/components/Navbar.tsx:53-62 | eight colours |
| Navbar.ToInt32 | client/src/components/Navbar.tsx:66 | a 32-bit signed value congruent to the input modulo 2 to the 32, and the input itself when it already fits |
| Navbar.ShiftLeft5 | client/src/components/Navbar.tsx:66 | the shift's result always fits in 32 signed bits |
| Navbar.ColorIndex | client/src/components/Navbar.tsx:68 | the index is below 8 |
| Navbar.GetProfileColor | client/src/components/Navbar.tsx:52-69 | the loop computes the string hash step by step, and the colour is the one at its absolute value modulo 8 |
| Navbar.ProfileColorRange | client/src/components/Navbar.tsx:52-69 | the eight colours are distinct, so the colour tells the index apart; the empty name gets the first |
| Navbar.HashOfOneCharacter | client/src/components/Navbar.tsx:64-68 | a one-character name hashes to its character code, and picks the colour at that code modulo 8 |
| Navbar.ProfileColorOfAl | client/src/components/Navbar.tsx:64-68 | the name 'Al' hashes to 2123 and picks the fourth colour |
| DbUtils.DecryptValue | server/db_utils.py:42-47 | a plaintext exactly for a token the key opens, and then that token's plaintext; None on any failure |
| DbUtils.SetClauses | server/db_utils.py:531-576 | after k if-blocks, never more clauses than the k columns seen |
| DbUtils.SetValues | server/db_utils.py:531-576 | after k if-blocks, never more values than the k arguments seen, and no value bound is None |
| DbUtils.ClausesAligned | server/db_utils.py:531-576 | after k if-blocks, one value per clause, and no clause at all exactly when each of the first k arguments is None |
| DbUtils.ClauseForColumn | server/db_utils.py:531-576 | among distinct columns without an '=', a column seen so far has its clause exactly when its argument is not None |
| DbUtils.ClauseHasSetColumn | server/db_utils.py:531-576 | every clause built from the first k columns names one of those k columns |
| DbUtils.ColumnClauseInjective | server/db_utils.py:535 | two columns without '=' give the same clause only when they are the same column |
| DbUtils.AppendIfSet | server/db_utils.py:534-536 | one if-block extends the clauses and values built so far to those of one more column |
| DbUtils.PreferenceUpdates | server/db_utils.py:531-576 | the eleven if-blocks build the clauses and values of exactly the preference arguments that are not None, in parameter order |
| DbUtils.PreferenceColumns | server/db_utils.py:513-517 | the eleven preference columns, in parameter order |
| DbUtils.UpdateUserPreferences | server/db_utils.py:513-602 | with a row present, one UPDATE with the clauses of the set arguments and their values followed by user_id, or nothing when none is set; without a row, one INSERT of user_id and all eleven arguments, None included; True in every case |
| DbUtils.NothingToUpdate | server/db_utils.py:578-596 | with a row present and every argument None, nothing is executed and the result is still True |
| DbUtils.ProfileColumns | server/db_utils.py:605-644 | the seven profile columns, the income under its encrypted column |
| DbUtils.ProfileArgs | server/db_utils.py:634-637 | the income is replaced by its encryption when given; every other argument is bound as it is |
| DbUtils.ProfileUpdates | server/db_utils.py:615-645 | the seven if-blocks build the clauses and values of exactly the profile arguments that are not None, in parameter order |
| DbUtils.UpdateUserProfile | server/db_utils.py:605-661 | True exactly when some argument is not None, and then one UPDATE with the set columns, their values and the id last; otherwise False with nothing executed |
| DbUtils.CreateUserPreferences | server/db_utils.py:486-510 | True on a fresh insert and on a duplicate row; any other database error is raised |
| DbUtils.ShapeUser | server/db_utils.py:100-105 | no user gives none; a falsy encrypted income leaves the record as fetched; a truthy one is deleted, and when it decrypts to a non-empty plaintext annual_income is set to its float, or float raises; every other field is unchanged |
| ExportService.Select | server/exports/service.py:22-24 | the query never returns more rows than the table holds |
| ExportService.Matching | server/exports/service.py:22-24 | every row returned is one of the table's, belongs to the user and lies in the half-open period |
| ExportService.SelectOfPeriod | server/exports/service.py:21-24 | clauses that accept exactly the rows of the period select exactly those rows, in stored order |
| ExportService.QueryTable | server/exports/service.py:8-27 | the clauses start with the user's; a start adds an inclusive lower bound and an end an exclusive upper one, each exactly when given; the parameters stay aligned one to one; the clauses accept exactly the rows in the period, and those rows are returned |
| ExportService.QueryClausesMean | server/exports/service.py:12-19 | the built clauses, read with their aligned parameters, accept exactly the user's rows in the half-open period |
| ExportService.Singular | server/exports/service.py:29-30 | exactly one trailing 's' is removed when there is one; other names are kept |
| ExportService.SingularOfTables | server/exports/service.py:29-30 | the three tables give income, expense and saving; a singular name is kept; only one 's' goes |
| ExportService.Tables | server/exports/service.py:34-40 | 'all' reads incomes, expenses and savings in that order; an allowed type reads its own table; anything else is rejected; only allowed tables are read |
| ExportService.ConvertedRows | server/exports/service.py:44-58 | one record per row whose amount decrypts and parses, and no other; each record carries the table's singular type and its row's id, time and amount, so the output is never longer than the rows fetched |
| ExportService.ConvertedKind | server/exports/service.py:53-54 | every record of a table carries that table's singular type |
| ExportService.ConvertRows | server/exports/service.py:44-58 | the inner loop appends exactly the converted records of the table's rows, in order, to what was built |
| ExportService.ExportTable | server/exports/service.py:44-58 | one table's turn appends the converted records of the user's rows of that table in the period, in query order, to what was built |
| ExportService.ExportTables | server/exports/service.py:42-58 | the loop over the selected tables builds exactly the export: each table's converted rows in turn, in table order |
| ExportService.ExportedBound | server/exports/service.py:43-58 | the export never holds more records than the queries fetched |
| ExportService.ExportedKinds | server/exports/service.py:43-58 | every record of an export of allowed tables is typed income, expense or saving |
| ExportService.FetchFinancialRows | server/exports/service.py:32-59 | an unknown type is rejected with the ValueError's message; otherwise the records of each selected table in turn, grouped by table order and then by query order |
| PdfSummary.CountOf | server/exports/pdf_writer.py:17-19 | a count never exceeds the number of records |
| PdfSummary.Summarize | server/exports/pdf_writer.py:13-29 | each total sums the amounts of the records of its type and each count counts them; the net is income less expense |
| PdfSummary.SplitTotals | server/exports/pdf_writer.py:14-19 | totals and counts of two batches of records concatenated are the sums of each batch's |
| PdfSummary.SummaryAdds | server/exports/pdf_writer.py:13-29 | the summary of two batches is the field-by-field sum of their summaries |
| PdfSummary.EmptySummary | server/exports/pdf_writer.py:13-29 | no records give all zeros |
| PdfSummary.OtherTypesIgnored | server/exports/pdf_writer.py:13-29 | a record of any other type changes nothing in the summary |
| PdfSummary.SavingsOutsideNet | server/exports/pdf_writer.py:16-20 | a saving adds to the savings total and count and leaves the net alone |
| PdfSummary.NetOfOneMore | server/exports/pdf_writer.py:14-20 | an income adds its amount to the net and an expense takes its amount away |
| PdfSummary.CountsCoverRows | server/exports/pdf_writer.py:17-19 | when every record has one of the three types, the three counts add up to the number of records |
| PdfSummary.CountsCoverExport | server/exports/pdf_writer.py:34-35 | the summary reads the 'all' export, whose records the three counts cover exactly |
| PdfSummary.PeriodLabel | server/exports/pdf_writer.py:49-53 | 'All time' exactly when neither bound is given; otherwise the two dates joined by ' to ', with '…' for a missing one |
| AuthSystem.Get | server/auth_system.py:25-26 | a missing key reads as None |
| AuthSystem.Or | server/auth_system.py:25 | Python's or: the first operand when it is truthy, else the second |
| AuthSystem.ExtractCredentials | server/auth_system.py:24-27 | a missing body gives two Nones; otherwise the email when truthy, else the username, and the password |
| AuthSystem.TruncateToInt | server/auth_system.py:55 | int() of a number truncates toward zero |
| AuthSystem.HandleRegister | server/auth_system.py:29-94 | the checks run in order: missing credentials 400, a taken email 409, then the age check's and the income check's rejections; the user is added exactly when all pass, with the email (or else the username) as username and email and the values the two checks accepted; 201 with the id exactly when the insert succeeds, 409 for a duplicate, 500 otherwise |
| AuthSystem.CheckAge | server/auth_system.py:53-59 | a falsy age passes unchanged; a truthy one that int() cannot convert is refused with the format message; a converted age from 18 to 100 passes as that int, any other is refused with the range message |
| AuthSystem.CheckIncome | server/auth_system.py:61-68 | a falsy income passes unchanged; a truthy one that float() cannot convert is refused with the format message; a converted income of at least 0 passes as that float, a negative one is refused |
| AuthSystem.AddUserReply | server/auth_system.py:70-94 | the insert is attempted with that user; 201 and the new id exactly when it succeeds, 409 with the taken-email message for a duplicate, 500 for any other failure |
| AuthSystem.FractionalAges | server/auth_system.py:53-59 | the age check truncates before its range test: 17.9 is refused as out of range and 100.5 accepted as 100 |
| AuthSystem.FalsyAgeSkipsCheck | server/auth_system.py:53-77 | a falsy age is not validated and reaches add_user unconverted |
| AuthSystem.Login | server/auth_system.py:102-122 | missing credentials give 400 exactly; an unknown user 401; a token exactly for a string password that bcrypt accepts for a known user, and then for that user's id and username |
| AuthSystem.LoginDoesNotRevealAccounts | server/auth_system.py:110-119 | an unknown user and a wrong password get the same reply |
| AuthSystem.Blocklist.Logout | server/auth_system.py:125-131 | a truthy jti is added to the blocklist, which otherwise does not change; the reply is always 200 |
| AuthSystem.LogoutRevokes | server/auth_system.py:125-137 | after a logout its jti counts as revoked, and every jti revoked before still is |
| Text.Split | client/src/components/Navbar.tsx:39 | split on one character always yields at least one part, and no part holds the separator |
| Text.JoinSplit | client/src/components/Navbar.tsx:39 | joining the parts of a split with the separator gives back the string |
| Text.SplitJoin | client/src/components/Navbar.tsx:39 | splitting a join of separator-free parts gives back the parts |
| Parse.ParseIntOfNatToString | client/src/pages/Login.tsx:143 | the time stamp written with toString is read back by parseInt as the same number |
| Parse.ParseIntOfIntToString | client/src/pages/Login.tsx:142 | a count written with toString is read back by parseInt as the same integer, negative ones included |
| Parse.ParseIntOfNaN | client/src/pages/Login.tsx:142 | the text NaN is read back by parseInt as NaN |
| Parse.ParseFloatOfNatToString | client/src/App.tsx:42 | a whole number written in digits is read back by parseFloat as that number |

Predicates and functions that only name a condition or a text (ExportService.InPeriod, ExportService.QuerySql, Login.Expired, Login.InvalidMessage, Navbar.Hash, StockPredictor.IsCrypto and the like) carry no contract of their own; what the source promises about them is stated by the members whose rows use them: ExportService.Matching and QueryTable, Login.OnMount and RecordFailure, Navbar.HashOfOneCharacter, Navbar.ProfileColorOfAl and GetProfileColor, StockPredictor.AssetCategory.

## Left out

- Google sign-in on the login page (client/src/pages/Login.tsx:88-107) and the effect that loads Google's script: they call into a library that is not part of this model.
- JSX rendering, the recharts charts, inline styles, hover handlers, toasts and the logo: presentation only.
- The pluralised text of the login warning banner: only when it shows and when the hint shows are modelled.
- `charCodeAt` and `length` count UTF-16 code units; the model's characters stand for code units, and surrogate pairs are not modelled.
- IEEE-754 doubles: numbers are exact reals, so NaN and Infinity do not arise. The isNaN and isFinite guards in client/src/pages/FundAllocation.tsx:103-106 are then no-ops, Python's int() of an infinity (an OverflowError) is not modelled, and the colour hash loses no precision above 2 to the 53.
- StockPredictor.RiskScore: Python's round(x, 1) on doubles rounds binary values half to even; the model rounds halves up and states only that the result is within 0.05 of the exact value.
- StockPredictor.PredictReturns: the same rounding, stated within 0.05 of the capped value.
- Ordering by created_at is done by the database; the export takes each table's rows in stored order.
- Date and number formatting (`isoformat`, `strftime`, `toFixed`, `toLocaleString`) is not modelled; a timestamp is an integer instant.
- The total printed with `toFixed` in the PortfolioPreview error message is not modelled; the message is identified by its condition.
- `fetch` and the network: every server reply is a parameter, a datatype of its outcome.
- `setTimeout` redirects and toast timers: a scheduled redirect is a flag on the page, and no timing is modelled.
- The price polling of the investments page (client/src/pages/Investments.tsx:74-77): timing only. Each fetched batch of prices goes through the modelled merge.
- `generatePriceHistory` (Math.random) and `calculateRiskFromHistory` (variance and Math.sqrt) in client/src/pages/Investments.tsx:293-323: random numbers and floating-point square roots.
- The copies of the risk normaliser, its label and its colour in client/src/pages/Dashboard.tsx:15-43 and client/src/pages/Investments.tsx:244-278 are identical to those in client/src/pages/FinancialVisualization.tsx. They are modelled once, in FinancialVisualization, and the other modules use that copy.
- src/App.tsx repeats the planner of client/src/App.tsx: StandaloneApp reuses PlannerApp's form and validity test and models only what differs.
- Fernet encryption is the token it produced, a parameter. The encoding with str() before encryption is not modelled.
- Database errors that update_user_preferences and update_user_profile raise again are not modelled. The existence check is the rowExists parameter, not the SELECT it runs.
- DbUtils.CreateUserPreferences: only the outcome is modelled (True on a fresh row and on a duplicate, an error raised otherwise), not the parameters of its INSERT.
- A value of the JSON request body is null, a boolean, an integer, a number or a string; lists and objects are collapsed into one case that keeps only their size, which is all their truthiness needs.
- bcrypt is a parameter that answers whether a password matches a hash. Creating a JWT is the token parameter. The SQL behind get_user_single is not modelled.
- The number grammar covers sign, digits and an optional fraction. Exponents, hexadecimal, Infinity and underscores are left out, and case mapping is ASCII only.
- A key missing from fetched JSON reads as null; JavaScript's separate undefined is not modelled, since every use treats the two alike.
- The CSV writer, the export routes and app.py, the Flask wiring, `_parse_date`, password_reset.py and its mail, keygenerator.py, `initialize_database` and AuthContext.tsx: thin wrappers over libraries or plumbing that is not part of this model.

## Findings

| source | as written | input that shows it | evidently intended | confidence | as-written member | corrected member |
|---|---|---|---|---|---|---|
| client/src/pages/RiskAssessment.tsx:83-99 | the last click records its answer with setAnswers but submits a score computed from the answers state as it was before that click, so the sixth answer is never counted | the top option everywhere (8, 9, 8, 8, 9, then 9) submits 42 / 6 = 7 | the score over all six answers, 51 / 6 rounded = 9 | not executed | RiskAssessment.LastAnswerDropped (the page as written is RiskAssessment.Questionnaire.HandleAnswer) | RiskAssessment.IntendedRiskScoreInRange (the corrected score is RiskAssessment.IntendedRiskScore) |
