# asesor-financiero in Dafny

A verified model of the computational core of the backend of asesor-financiero. The backend
is a financial adviser for small and medium businesses (PyMEs). This project covers five
areas:

- **Transaction store.** Spreadsheet rows become transactions. Keyword classifiers pick the
  category and decide whether a personal transaction is relevant to the business. The
  store computes yearly totals and margins, a recent cash-flow trend, and a sorted monthly
  cash-flow history with a running balance.
- **What-if simulation engine.** It projects income, expenses and a running balance month
  by month from a baseline and the scenario's knobs. From the projection it derives key
  metrics, a break-even month, a truncated rule cascade of recommendations and a
  three-level risk label.
- **Analysis reductions.** Period slicing and a two-month trend; per-category totals,
  percentages and a top-three ranking; a twelve-month revenue average; expense efficiency.
- **Warehouse helpers.** A multiplier simulation, the chat context's averages, and the
  mapping of warehouse rows to transaction records with category and type normalisation.
- **Language-model client and chat.** The text heuristics of the client: recommendation
  lines, a confidence score, chart tags, and the offline reply chosen by keywords. The
  chat's personalised question suggestions.

Modules follow the source files:

| module | file |
|---|---|
| `Wrappers` | option/result types, `s[:n]`, `s[-n:]` |
| `Text` | `lower`, `in`, `startswith`, `strip`, `split`, `str(int)`, `int(str)` |
| `FinancialModels` | `backend/app/models/financial_models.py` |
| `DataService` | `backend/app/services/data_service.py` |
| `Simulations` | `backend/app/api/simulations.py` |
| `Analysis` | `backend/app/api/analysis.py` |
| `Snowflake` | `backend/app/services/snowflake_service.py` |
| `Gemini` | `backend/app/services/gemini_service.py` |
| `Chat` | `backend/app/api/chat.py` |

Conventions:

- **Numbers.** Money, ratios and confidences are `real`.
- **Scenario knobs.** These are a `map<string, real>`; a missing key reads as 0, as
  `.get(key, 0)` does.
- **Today's date.** It is a parameter wherever the source reads the clock.
- **State.** Objects whose fields the source updates are classes (`DataService.DataService`,
  `Snowflake.SnowflakeService`, `Gemini.GeminiService`). Loops that build lists or
  dictionaries are methods proved against specification functions.
- **Errors.** An exception a caller catches is a `Result`/`Option` value.
- **Endpoint inputs.** The analysis endpoints receive the data service's state as values.
- **External results.** The language model's reply and the warehouse's query results are
  parameters.

## Model

| member | source | states |
|---|---|---|
| FinancialModels.TypeFromValue | backend/app/models/financial_models.py:10-13 | Parsing a type value gives the member with that value, or None when no member has it |
| FinancialModels.TransactionTypesEnumerated | backend/app/models/financial_models.py:10-13 | There are exactly three transaction types and each value parses back to its member |
| FinancialModels.CategoryFromValue | backend/app/models/financial_models.py:15-22 | Parsing a category value gives the member with that value |
| FinancialModels.CategoriesEnumerated | backend/app/models/financial_models.py:15-22 | There are exactly seven categories and each value parses back to its member |
| FinancialModels.NewTransaction | backend/app/models/financial_models.py:24-33 | A transaction is built exactly when the amount is strictly positive, and then carries the given fields |
| FinancialModels.WellFormedFlowTotals | backend/app/models/financial_models.py:35-41 | In a flow whose nets and running balances are consistent, the net total is income minus expenses and equals the last balance |
| FinancialModels.NewScenario | backend/app/models/financial_models.py:54-59 | A scenario built without a duration runs for 12 months and keeps its open parameter map |
| FinancialModels.ValidateSimulationResult | backend/app/models/financial_models.py:67-74 | A result validates exactly when every key metric is a number and the confidence lies in [0, 1] |
| FinancialModels.NewSimulationOutcome | backend/app/models/financial_models.py:67-74 | With optional metric values only the confidence bound can reject a result, and every metric survives unchanged |
| DataService.FirstPresentIsFirst | backend/app/services/data_service.py:161-166 | The column found is the earliest candidate present in the row, and there is none exactly when no candidate is present |
| DataService.FindColumn | backend/app/services/data_service.py:161-166 | The early-return loop returns the first candidate present in the row |
| DataService.MapCategoryFirstMatch | backend/app/services/data_service.py:168-184 | Only the lower-cased description decides. The category is the first keyword group it mentions, in the order sales, personnel, marketing, equipment, utilities; it is Other exactly when none matches |
| DataService.RelevantOnly | backend/app/services/data_service.py:50-52 | A transaction occurs among those kept exactly when it occurs among the personal ones and is business-relevant; never more than the input |
| DataService.RelevantOnlyAppend | backend/app/services/data_service.py:50-52 | The filter goes one transaction at a time: two parts joined keep what each part keeps, in order, so order and repeats are preserved |
| DataService.RelevantOnlyKeeps | backend/app/services/data_service.py:203-218 | A kept transaction is at least 100 and is an investment or mentions a business keyword; an investment of at least 100 is always kept |
| DataService.MapExcelRow | backend/app/services/data_service.py:120-159 | None exactly when the amount, date or description column is missing, when the amount cell is not a number (an empty cell is NaN), when it is 0, or when a category column is present but its cell is not text; otherwise a positive amount gives income and any other an expense of its absolute value, the description is the cell's text, and the category comes from the description |
| DataService.LoadSheet | backend/app/services/data_service.py:98-113 | The mapped rows in order, or None when no row maps |
| DataService.BreakdownCoversTotal | backend/app/services/data_service.py:240-243 | The per-category totals over all categories add up to the type's total |
| DataService.BreakdownKeys | backend/app/services/data_service.py:240-243 | A breakdown has exactly the categories occurring in its type, each with a positive total |
| DataService.MetricsMeaning | backend/app/services/data_service.py:228-234 | Revenue counts income only and expenses count expenses only. The net profit is revenue minus expenses. Both margins are the same figure; it turns back into the net profit and is 0 without revenue |
| DataService.InvestmentLeavesMetrics | backend/app/services/data_service.py:228-243 | Adding an investment changes no total, margin or breakdown |
| DataService.MonthsInOrderCovers | backend/app/services/data_service.py:298-304 | The dictionary keys are exactly the months of the transactions, without repeats |
| DataService.SideTotals | backend/app/services/data_service.py:306-309 | Inflow is income; outflow is expenses and investments together |
| DataService.MonthSumsConserve | backend/app/services/data_service.py:298-309 | Grouping by month loses nothing: the month sums add up to the side's total |
| DataService.GroupByMonth | backend/app/services/data_service.py:298-309 | The grouping loop builds one entry per month in first-appearance order, holding that month's inflow and outflow |
| DataService.RecentFrom | backend/app/services/data_service.py:262-263 | Exactly the transactions dated on or after the window's first day |
| DataService.ClassifyFlowsMeaning | backend/app/services/data_service.py:281-290 | Positive when the last three flows strictly rise (the last two when there are two), negative when they strictly fall, stable otherwise |
| DataService.ClassifyFlowsSymmetric | backend/app/services/data_service.py:285-290 | Negating every flow swaps positive and negative and keeps stable |
| DataService.TrendSinceMeaning | backend/app/services/data_service.py:258-282 | Stable with fewer than 6 transactions, fewer than 3 in the window or fewer than 2 months; otherwise the classifier's reading of the window's monthly flows |
| DataService.RecentFlowsConserve | backend/app/services/data_service.py:269-280 | There is one flow per month of the window, and the flows add up to the window's income minus everything else |
| DataService.FlowValues | backend/app/services/data_service.py:280 | The loop lists each month's net flow in key order |
| DataService.SortMonthsAscending | backend/app/services/data_service.py:312 | Sorting distinct months gives each once, strictly ascending |
| DataService.HistoryOfWellFormed | backend/app/services/data_service.py:312-323 | Each entry's net is its income minus its expenses, and its balance is the previous balance plus its net |
| DataService.CashFlowHistoryMeaning | backend/app/services/data_service.py:292-323 | There is one entry per distinct month, strictly ascending. Each entry holds that month's income and outflow. The balance is carried forward, and the last balance is all income minus all outflow |
| DataService.HistoryEntries | backend/app/services/data_service.py:312-323 | The history loop appends exactly the specified entries, with the running balance |
| DataService.MonthlyHistory | backend/app/services/data_service.py:298-323 | Grouping, sorting and the history loop together give the history of the sorted months |
| DataService.DataService.constructor | backend/app/services/data_service.py:23-28 | A new service has no transactions, no metrics and no history |
| DataService.DataService.RecentCashFlowTrend | backend/app/services/data_service.py:256-290 | The trend of the service's transactions for the given date; always positive, negative or stable |
| DataService.DataService.CalculateMetrics | backend/app/services/data_service.py:220-254 | Without transactions the metrics are untouched; otherwise they become the transactions' metrics with the recent trend |
| DataService.DataService.GenerateCashFlowHistory | backend/app/services/data_service.py:292-323 | Without transactions nothing changes; otherwise the sorted monthly history is appended to the existing history, which is not cleared |
| DataService.DataService.LoadFinancialData | backend/app/services/data_service.py:30-68 | Company transactions are added as they are and personal ones only when relevant; then the metrics and history are computed |
| Simulations.BaselineFromMetrics | backend/app/api/simulations.py:34-38 | The baseline is a twelfth of the yearly totals, with net equal to revenue minus expenses, or all zeros without metrics |
| Simulations.RunSimulation | backend/app/api/simulations.py:68-112 | There are max(duration, 0) months. Month m is the closed-form projection, and the flow is well formed |
| Simulations.MonthLabelNumbers | backend/app/api/simulations.py:103 | Month index m is labelled "Mes " followed by m+1, which parses back to m+1 |
| Simulations.IncomeIsLinear | backend/app/api/simulations.py:81-92 | Income starts at base×(1+rc/100) and grows by the same amount every month |
| Simulations.ZeroScenarioIdentity | backend/app/api/simulations.py:81-95 | With no knobs set every month repeats the baseline |
| Simulations.CumulativeClosedForm | backend/app/api/simulations.py:89-99 | The balance after month m has a closed form in m |
| Simulations.BreakEvenMonthIsFirst | backend/app/api/simulations.py:128-133 | The break-even month is the 1-based first month whose balance is not negative, and None exactly when every balance is negative |
| Simulations.BreakEvenOfIncreasingBalance | backend/app/api/simulations.py:128-133 | When balances only rise and first reach 0 in month k, the break-even month is k |
| Simulations.TrendPercentageMeaning | backend/app/api/simulations.py:124-126 | The trend percentage turns back into the last net. It is 0 exactly when the first net is 0 or the nets are equal, and it has the sign of the change when the first net is positive |
| Simulations.CalculateKeyMetrics | backend/app/api/simulations.py:114-143 | An empty projection gives an empty map. Otherwise the map holds the three sums, net/len, the trend percentage, the break-even month (possibly None) and the last balance |
| Simulations.CountNegativePositive | backend/app/api/simulations.py:153-154 | The count is non-zero exactly when some month is negative |
| Simulations.GenerateRecommendations | backend/app/api/simulations.py:145-187 | Empty gives the sentinel; otherwise the first five of the rule cascade |
| Simulations.AnalysisRulesSurvive | backend/app/api/simulations.py:153-187 | The financing, balance and trend notes open the list, in that order, and are never cut |
| Simulations.ScenarioNotesFollow | backend/app/api/simulations.py:173-187 | The hiring notes follow when the name mentions hiring. The investment notes follow only otherwise, when it mentions investment. No notes follow in any other case |
| Simulations.RiskInWholeMonths | backend/app/api/simulations.py:189-207 | High when more than half the months are negative or the balance is below -10000. Otherwise Medium when more than a quarter are negative or the balance is below 0. Otherwise Low |
| Simulations.HalfNegativeIsNotHigh | backend/app/api/simulations.py:202-205 | Exactly half negative with final balance 0 is Medium |
| Simulations.RiskLabelsDistinct | backend/app/api/simulations.py:192-207 | The four risk texts are distinct |
| Simulations.ReferenceScenarioGrowing | backend/app/api/simulations.py:68-207 | A worked growing scenario: nets of 3000, balances 3000/6000/9000, break-even in month 1, low risk |
| Simulations.ReferenceScenarioNoRevenue | backend/app/api/simulations.py:68-207 | A worked no-revenue scenario: balances -5000/-10000, trend 0, no break-even, high risk |
| Simulations.CreateSimulationAsWritten | backend/app/api/simulations.py:41-62 | The result is rejected exactly when the projection has months and every balance is negative |
| Simulations.OnlyBreakEvenCanBeNull | backend/app/api/simulations.py:129-142 | When every other metric is a number, all metrics are numbers exactly when a break-even month exists |
| Simulations.NeverBreaksEven | backend/app/api/simulations.py:128-133 | No break-even month exactly when every projected balance is negative |
| Simulations.CreateSimulation | backend/app/api/simulations.py:41-62 | The simulation always succeeds and carries the scenario's name, one projected month per requested month with the value of the growth model at that month, a consistent running balance, every key metric (income, expenses, net flow, average, trend, break-even, final balance) as computed from that projection, the rule-cascade recommendations cut to the maximum (or the single no-data recommendation with no metrics when the projection is empty), the risk assessment of the projection and the fixed confidence 0.8 |
| Simulations.NoRevenueScenarioNeverBreaksEven | backend/app/api/simulations.py:129-133 | A two-month scenario with no revenue never breaks even |
| Analysis.Rewrapped | backend/app/api/analysis.py:69-71 | Any inner error leaves as a 500 whose detail is the prefix followed by the inner detail |
| Analysis.FilterPeriod | backend/app/api/analysis.py:36-40 | Keeps the last 6, the last 3, or (for any other period name) all months, as a suffix |
| Analysis.TwoPointTrend | backend/app/api/analysis.py:48-51 | Stable exactly when there are fewer than two months; positive exactly when the last net exceeds the one before; negative exactly when it does not (ties included) |
| Analysis.MonthlyAverage | backend/app/api/analysis.py:45 | The average times the number of months gives back the total, and the average is 0 without months |
| Analysis.AnalyzeCashflow | backend/app/api/analysis.py:26-71 | Fails exactly on an empty history, with the 404 rewrapped as a 500. Otherwise the months are the period's, never empty; income and expenses are their sums; net flow is income minus expenses; the average is the mean of the months' nets; the trend compares the last two months |
| Analysis.CashflowNetIsSumOfNets | backend/app/api/analysis.py:43-57 | With consistent nets, the reported net flow is the sum of the months' nets and the average is that sum spread over the months |
| Analysis.PeriodNetIsBalanceChange | backend/app/api/analysis.py:36-57 | On a well-formed history, a period's net flow is the last balance minus the balance before the period |
| Analysis.CashflowTrendIgnoresPeriod | backend/app/api/analysis.py:36-51 | Every period reports the same trend |
| Analysis.TwoPointTrendVersusService | backend/app/api/analysis.py:48-51 | Against the service's classifier: the two agree when two nets differ, but a tie is negative here and stable there |
| Analysis.CategoriesInOrderCovers | backend/app/api/analysis.py:87-92 | The dictionary keys are exactly the categories occurring in the type |
| Analysis.GroupByCategory | backend/app/api/analysis.py:84-92 | The update loop gives the keys in first-appearance order, each with its category total |
| Analysis.GroupedTotals | backend/app/api/analysis.py:87-95 | The totals add up to the type's total and equal the service's breakdown |
| Analysis.PercentagesMeaning | backend/app/api/analysis.py:94-99 | With a positive total the percentages add up to 100 and each lies in [0, 100]; otherwise all are 0 |
| Analysis.InsertByAmount | backend/app/api/analysis.py:102 | Insertion keeps the multiset of items |
| Analysis.SortByAmount | backend/app/api/analysis.py:102 | The ranking is a permutation of the items |
| Analysis.SortByAmountSorted | backend/app/api/analysis.py:102 | The ranking is in non-increasing order of amount |
| Analysis.TopCategories | backend/app/api/analysis.py:102 | There are min(3, n) entries, each an item |
| Analysis.TopCategoriesAreLargest | backend/app/api/analysis.py:102 | The top items run from largest to smallest, and no omitted item exceeds a ranked one |
| Analysis.RankingMeaning | backend/app/api/analysis.py:102-110 | At most three entries, each a key with its own value, largest first; every key left out is at most each ranked value |
| Analysis.AnalyzeExpenses | backend/app/api/analysis.py:74-120 | Fails exactly when there are no transactions (as a 500); otherwise the expense analysis of the transactions |
| Analysis.ExpenseTotalsMeaning | backend/app/api/analysis.py:84-99 | Counts expenses only: the total is the expense total and the breakdown the service's. The percentages add up to 100 when there are expenses and each lies in [0, 100] |
| Analysis.ExpenseRankingMeaning | backend/app/api/analysis.py:102-110 | At most three categories, largest first, each with its own total and percentage; no omitted category spent more |
| Analysis.AnalyzeRevenue | backend/app/api/analysis.py:123-166 | Fails exactly when there are no transactions (as a 500); otherwise the revenue analysis |
| Analysis.RevenueAnalysisMeaning | backend/app/api/analysis.py:133-148 | The total is the income total and the monthly average is a twelfth of it. The breakdown is the service's. The ranking keeps the three largest categories |
| Analysis.AnalyzeProfitability | backend/app/api/analysis.py:169-202 | Fails exactly without metrics. Efficiency×revenue is 100×(revenue − expenses) when revenue is positive, and 0 otherwise. Revenue growth is 0 |
| Analysis.ExpenseEfficiencyIsProfitMargin | backend/app/api/analysis.py:181 | On computed metrics, expense efficiency equals the profit margin and is at most 100 |
| Snowflake.SumOfTypeAppend | backend/app/services/snowflake_service.py:348-349 | The sum of the rows of one type over two parts of the rows is the sum of the parts' sums |
| Snowflake.ProcessSimulationTotals | backend/app/services/snowflake_service.py:348-362 | The current income, expenses and net of the year are those of its parts added up; each net is income minus expenses |
| Snowflake.ProcessSimulationPercentages | backend/app/services/snowflake_service.py:352-367 | Each change percentage turns the current figure into the projected one |
| Snowflake.ProcessSimulationNetChange | backend/app/services/snowflake_service.py:368 | The net change turns the current net into the projected one, and is 0 when the current net is 0 |
| Snowflake.UnchangedScenario | backend/app/services/snowflake_service.py:352-368 | With no multipliers, projections equal the current figures and every change is 0 |
| Snowflake.UniformMultiplier | backend/app/services/snowflake_service.py:355-368 | One multiplier for both sides scales the net by it too |
| Snowflake.OtherTypesIgnored | backend/app/services/snowflake_service.py:348-349 | Rows of any other type change nothing |
| Snowflake.ChatContextOf | backend/app/services/snowflake_service.py:371-397 | Nothing when the analysis is empty. Otherwise: the newest month, average×count equal to the sums (0 without months), and a margin of 0 unless average income is positive |
| Snowflake.ChatMarginIsPeriodMargin | backend/app/services/snowflake_service.py:382-393 | The margin of the averages is the margin of the period's totals |
| Snowflake.NormaliseCategoryMeaning | backend/app/services/snowflake_service.py:515-531 | Each synonym list decides its own category exactly, everything else is operating expenses, and "other" is never produced |
| Snowflake.CategoryValuesMapBack | backend/app/services/snowflake_service.py:515-531 | Every category value but "other" maps back to its category; "other" becomes operating expenses |
| Snowflake.LongTextUnlisted | backend/app/services/snowflake_service.py:518-531 | Text longer than every synonym is operating expenses |
| Snowflake.NormaliseTypeMeaning | backend/app/services/snowflake_service.py:534-542 | Income and investment are exactly their listed texts; everything else, "inversión" included, is an expense |
| Snowflake.TypeValuesMapBack | backend/app/services/snowflake_service.py:534-542 | Every type value maps back to its type, and a missing type is an expense |
| Snowflake.LastPieceAfterSeparator | backend/app/services/snowflake_service.py:545 | The last piece of a text is the text after its last underscore |
| Snowflake.IdOf | backend/app/services/snowflake_service.py:545 | An integer id, or a text id without an underscore, gives 0; wherever the written conversion succeeds the corrected one agrees with it |
| Snowflake.IdOfSeparated | backend/app/services/snowflake_service.py:545 | For a text id made of a prefix, an underscore and a piece without underscores: the piece's integer value when it parses, 0 otherwise |
| Snowflake.IdOfNumbered | backend/app/services/snowflake_service.py:545 | A prefix, an underscore and the decimal text of k give back k |
| Snowflake.MappedAsWritten | backend/app/services/snowflake_service.py:512-553 | The mapping fails exactly when some row's id fails to parse |
| Snowflake.MapRowsAsWritten | backend/app/services/snowflake_service.py:512-557 | The written loop lists the mapped rows, or nothing at all when an id does not parse |
| Snowflake.MappedAsWrittenFails | backend/app/services/snowflake_service.py:512-557 | Once a prefix fails, the whole listing fails |
| Snowflake.Mapped | backend/app/services/snowflake_service.py:512-553 | One record per row |
| Snowflake.MapRows | backend/app/services/snowflake_service.py:512-553 | The corrected loop lists one record per row |
| Snowflake.MappedExtendsAsWritten | backend/app/services/snowflake_service.py:512-553 | The corrected mapping agrees with the written one wherever that succeeds |
| Snowflake.GeneratedIdEmptiesListing | backend/app/services/snowflake_service.py:545-557 | One generated "txn_" id with a hex letter makes the written listing empty, while the corrected one lists every row |
| Snowflake.GeneratedIdDoesNotParse | backend/app/services/snowflake_service.py:545 | The text after the underscore of a generated id does not parse as an integer |
| Snowflake.SelectRows | backend/app/services/snowflake_service.py:491-507 | The spreadsheet table's rows when it has any, otherwise the transactions table's |
| Snowflake.SnowflakeService.constructor | backend/app/services/snowflake_service.py:23-30 | A new service has no connection |
| Snowflake.SnowflakeService.Connect | backend/app/services/snowflake_service.py:32-47 | Reports whether the driver accepted; a failed attempt leaves the connection as it was |
| Snowflake.SnowflakeService.GetTransactionsAsWritten | backend/app/services/snowflake_service.py:468-557 | Nothing without a connection; otherwise the written mapping of the selected rows, or nothing when an id fails |
| Snowflake.SnowflakeService.GetTransactions | backend/app/services/snowflake_service.py:468-557 | Nothing without a connection; otherwise one record per selected row |
| Snowflake.SnowflakeService.GetChatContext | backend/app/services/snowflake_service.py:371-397 | Nothing without a connection; otherwise the chat context of the analysis |
| Gemini.ExtractRecommendations | backend/app/services/gemini_service.py:145-159 | The loop returns the first five recommendation lines |
| Gemini.RecommendationLinesAppend | backend/app/services/gemini_service.py:148-157 | The scan keeps text order: two blocks of lines give the first block's recommendations, then the second's |
| Gemini.RecommendationLinesExact | backend/app/services/gemini_service.py:150-157 | A line is found exactly when it is the stripped form of an input line and is a recommendation; found lines are stripped |
| Gemini.ExtractedRecommendations | backend/app/services/gemini_service.py:145-159 | At most five results: the first recommendation lines in text order (all of them when there are at most five), each a stripped recommendation |
| Gemini.ConfidenceOf | backend/app/services/gemini_service.py:161-173 | The confidence lies in [0.1, 1.0] |
| Gemini.CalculateConfidence | backend/app/services/gemini_service.py:161-173 | The accumulator computes the specified confidence, within [0.1, 1.0] |
| Gemini.ConfidenceTable | backend/app/services/gemini_service.py:163-173 | Specific and unhedged gives 0.9; neither gives 0.8; both give 0.7; hedged only gives 0.6. The clamp never binds |
| Gemini.SuggestVisualizations | backend/app/services/gemini_service.py:175-192 | The four tests give the table-driven list of tags |
| Gemini.VisualizationsMeaning | backend/app/services/gemini_service.py:177-192 | Each tag appears exactly when one of its keywords occurs in the lower-cased question, at most once, in the fixed order cash flow, expenses, revenue, projection |
| Gemini.SimulateResponse | backend/app/services/gemini_service.py:194-270 | Hiring words give confidence 0.8. Otherwise investment words give 0.7. Otherwise 0.9, and only the general reply has no tags |
| Gemini.HiringTakesPrecedence | backend/app/services/gemini_service.py:198-223 | A question about both hiring and investing gets the hiring reply and its recommendations |
| Gemini.RecentCashFlow | backend/app/services/gemini_service.py:68 | The context shows at most the last three months, in order, ending with the last month |
| Gemini.GeminiService.constructor | backend/app/services/gemini_service.py:18-30 | Availability is whether configuring the model succeeded |
| Gemini.GeminiService.AnalyzeFinancialQuestion | backend/app/services/gemini_service.py:32-52 | An unavailable model or a failed call falls back to the offline reply; otherwise the reply is structured by the three heuristics |
| Chat.LeadQuestion | backend/app/api/chat.py:89-93 | The negative-flow question iff the trend is "negative". The margin question iff it is not and the margin is below 10. None otherwise |
| Chat.GetSuggestions | backend/app/api/chat.py:72-95 | Always 8 suggestions. Without a lead question they are the base list; with one it comes first and the last base question is dropped |
| Chat.SuggestionsDistinct | backend/app/api/chat.py:77-95 | The eight suggestions are distinct, and the first seven base questions are always offered |

## Left out

- SQL text, connections, cursors and table creation in the warehouse service are not modelled. The query results are parameters. `disconnect`, `create_tables`, `insert_pyme_data`, `get_financial_analysis`, `run_simulation`'s query and `log_chat_interaction` are database I/O.
- Reading spreadsheets with pandas, creating the data directory, and the sample data seeded by `_create_sample_data` are not modelled.
- DataService.DataService.LoadFinancialData: when no transaction loads, the service seeds sample data. The model leaves that state unchanged instead, because seeding is fixed sample data. The outer exception handler is not modelled either.
- `_parse_date` is not modelled. Rows arrive with their date already parsed, because it is a thin wrapper over `strptime` with a fallback to today's date.
- Clock reads are a `today` parameter, and the `created_at` timestamp is dropped.
- Floating point rounding is not modelled: all money, ratios and confidences are exact reals.
- Python's `str.lower()` is modelled for ASCII and the Latin-1 capitals only. That covers every keyword the core tests; other Unicode case mappings are left out.
- `strip()` (and the whitespace `int()` and `float()` skip) removes the ASCII whitespace only: space, \t, \n, \v, \f, \r and \x1c to \x1f. Unicode spaces such as U+0085 and U+00A0 are not removed.
- The free-form `analysis` and `results` dictionaries of the chat and analysis responses are not modelled. The insight sentences and the `:,.2f` formatting of the endpoints are not modelled either.
- Prompt construction, the network call to the language model, `generate_simulation_analysis` and `_simulate_simulation_analysis` are not modelled. These are foreign calls and fixed prose; the model's reply is a parameter.
- Of `_prepare_financial_context`, only the choice of the last three cash-flow months is modelled (Gemini.RecentCashFlow). The text it writes is formatting.
- The fallback `ChatResponse` in `_process_gemini_response`'s exception handler is not modelled. The three heuristics cannot raise in the model.
- `send_message` and `get_chat_history` in the chat router are not modelled. They pass a context through, or return fixed sample data.
- `comprehensive_analysis`, the FastAPI routing, dependency providers, `main.py` and `transactions.py` are handler glue.
- The date column of the warehouse rows is passed through as text; its `isoformat`/`str` conversion is not modelled.
- The category and trend dictionaries `get_chat_context` passes through are not modelled.
- `backend/app/services/elevenlabs_service.py` is not part of this model (a text-to-speech client).
- DataService.MapExcelRow: amounts written with an exponent ("1e3"), with digit separators ("1_000") or as "inf" are rejected, although `float()` accepts them. Number cells hold exact reals, so a NaN or infinite number other than an empty cell is not represented, nor are date or boolean cells. The text `str()` prints for a number cell is carried in the cell rather than computed.
- Snowflake.MappedAsWritten: the amount column arrives as a number. `float(row[2])` raising on a NULL or non-numeric amount, which would also empty the whole listing, is not modelled. Rows of the transactions table cannot hit this (`amount` is `NOT NULL`); the schema of the spreadsheet table is not given in the source. The same holds for Snowflake.Mapped.
- Analysis.SortByAmount: the stable order of equal amounts is implemented (ties keep insertion order) but not stated as a contract.
- Snowflake.IdOf: an integer id from `ROW_NUMBER()` has no underscore in its text, so it gives 0 as the source does. The row number is not recovered.

## Findings

| source | as written | input that shows it | evidently intended | confidence | as-written member | corrected member |
|---|---|---|---|---|---|---|
| backend/app/api/simulations.py:129-142 with backend/app/models/financial_models.py:71 | `break_even_month` is None when the balance never turns non-negative, but `key_metrics` is declared as floats only, so building the `SimulationResult` fails and the endpoint answers 500 | a scenario with no revenue and 5000 of monthly expenses over 2 months | the result carries an optional break-even month | not executed | Simulations.CreateSimulationAsWritten, Simulations.NoRevenueScenarioNeverBreaksEven | Simulations.CreateSimulation |
| backend/app/services/snowflake_service.py:545 with backend/app/services/snowflake_service.py:438 | `int(row[0].split('_')[-1])` is applied to ids that `insert_transaction` creates as `txn_` plus 12 hex digits; a hex letter makes `int()` raise, and the handler returns an empty list for the whole query | one table row with id `txn_a1b2c3d4e5f6` | every row is listed and an id that is not a number becomes 0 | not executed | Snowflake.MapRowsAsWritten, Snowflake.GeneratedIdEmptiesListing | Snowflake.MapRows |

A non-positive `duration_months` yields an empty projection; nothing rejects it
(backend/app/api/simulations.py:90). The fixed texts are the Spanish ones of the source.
