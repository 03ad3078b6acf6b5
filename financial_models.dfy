/** The records and enumerations of the backend's data model. Pydantic validates a record
    when it is built; here a field constraint is a subset type, and building a record from
    unchecked values is a function that returns None/Failure where pydantic would raise. */
module FinancialModels {
  import opened Wrappers

  datatype TransactionType = Income | Expense | Investment

  /** The enumeration's string value (`TransactionType.INCOME.value == "income"`). */
  function TypeValue(t: TransactionType): string
  {
    match t
    case Income => "income"
    case Expense => "expense"
    case Investment => "investment"
  }

  const AllTransactionTypes: seq<TransactionType> := [Income, Expense, Investment]

  /** `TransactionType(s)`: the member whose value is `s`, or None where Python raises. */
  function TypeFromValue(s: string): (r: Option<TransactionType>)
    ensures r.Some? ==> TypeValue(r.value) == s
    ensures r.None? ==> forall t :: TypeValue(t) != s
  {
    if s == "income" then Some(Income)
    else if s == "expense" then Some(Expense)
    else if s == "investment" then Some(Investment)
    else None
  }

  /** The enumeration has exactly the three members listed, each with its own value. */
  lemma TransactionTypesEnumerated()
    ensures |AllTransactionTypes| == 3
    ensures forall t :: t in AllTransactionTypes
    ensures forall t :: TypeFromValue(TypeValue(t)) == Some(t)
  {
    forall t ensures t in AllTransactionTypes && TypeFromValue(TypeValue(t)) == Some(t) {
      match t
      case Income =>
      case Expense =>
      case Investment =>
    }
  }

  datatype CategoryType =
    | Sales | OperatingExpenses | Personnel | Marketing | Equipment | Utilities | Other

  function CategoryValue(c: CategoryType): string
  {
    match c
    case Sales => "sales"
    case OperatingExpenses => "operating_expenses"
    case Personnel => "personnel"
    case Marketing => "marketing"
    case Equipment => "equipment"
    case Utilities => "utilities"
    case Other => "other"
  }

  const AllCategories: seq<CategoryType> :=
    [Sales, OperatingExpenses, Personnel, Marketing, Equipment, Utilities, Other]

  /** `CategoryType(s)`. */
  function CategoryFromValue(s: string): (r: Option<CategoryType>)
    ensures r.Some? ==> CategoryValue(r.value) == s
  {
    if s == "sales" then Some(Sales)
    else if s == "operating_expenses" then Some(OperatingExpenses)
    else if s == "personnel" then Some(Personnel)
    else if s == "marketing" then Some(Marketing)
    else if s == "equipment" then Some(Equipment)
    else if s == "utilities" then Some(Utilities)
    else if s == "other" then Some(Other)
    else None
  }

  /** The enumeration has exactly the seven members listed, each with its own value. */
  lemma CategoriesEnumerated()
    ensures |AllCategories| == 7
    ensures forall c :: c in AllCategories
    ensures forall c :: CategoryFromValue(CategoryValue(c)) == Some(c)
  {
    forall c ensures c in AllCategories && CategoryFromValue(CategoryValue(c)) == Some(c) {
      CategoryValueRoundTrip(c);
    }
  }

  lemma CategoryValueRoundTrip(c: CategoryType)
    ensures c in AllCategories
    ensures CategoryFromValue(CategoryValue(c)) == Some(c)
  {
    match c
    case Sales =>
    case OperatingExpenses =>
      assert CategoryValue(c)[0] != "sales"[0];
    case Personnel =>
      assert |CategoryValue(c)| == 9;
    case Marketing =>
      assert |CategoryValue(c)| == 9 && CategoryValue(c)[0] == 'm';
    case Equipment =>
      assert |CategoryValue(c)| == 9 && CategoryValue(c)[0] == 'e';
    case Utilities =>
      assert |CategoryValue(c)| == 9 && CategoryValue(c)[0] == 'u';
    case Other =>
      assert |CategoryValue(c)| == 5 && CategoryValue(c)[0] == 'o';
  }

  /** A calendar date (`datetime.date`). */
  datatype Date = Date(year: nat, month: nat, day: nat)

  /** Days since 1970-01-01 in the proleptic Gregorian calendar, so that comparing and
      subtracting dates is comparing and subtracting these numbers. */
  function DayNumber(d: Date): int
  {
    var y := if d.month <= 2 then d.year - 1 else d.year;
    var era := y / 400;
    var yoe := y - era * 400;
    var mp := (d.month + 9) % 12;
    var doy := (153 * mp + 2) / 5 + d.day - 1;
    var doe := yoe * 365 + yoe / 4 - yoe / 100 + doy;
    era * 146097 + doe - 719468
  }

  /** `Field(..., gt=0)`. */
  type PositiveAmount = r: real | r > 0.0 witness 1.0

  /** A value in [0, 1] (`Field(..., ge=0, le=1)`). */
  type UnitInterval = r: real | 0.0 <= r <= 1.0 witness 0.0

  /** `FinancialTransaction`; `created_at` (a clock reading) is not modelled. */
  datatype Transaction = Transaction(
    id: Option<int>,
    date: Date,
    amount: PositiveAmount,
    description: string,
    category: CategoryType,
    transactionType: TransactionType,
    account: Option<string>)

  /** Building a `FinancialTransaction` validates the amount: pydantic rejects a
      non-positive amount, modelled as None. */
  function NewTransaction(date: Date, amount: real, description: string,
                          category: CategoryType, transactionType: TransactionType)
    : (r: Option<Transaction>)
    ensures r.Some? <==> amount > 0.0
    ensures r.Some? ==> (r.value.amount == amount && r.value.date == date
      && r.value.description == description && r.value.category == category
      && r.value.transactionType == transactionType && r.value.id.None?)
  {
    if amount > 0.0 then Some(Transaction(None, date, amount, description, category, transactionType, None))
    else None
  }

  /** `CashFlowData`: one month of a history or of a projection. */
  datatype CashFlowData = CashFlowData(
    period: string,
    income: real,
    expenses: real,
    netCashFlow: real,
    cumulativeBalance: real)

  /** Python's `sum(m.income for m in data)` and its two siblings. */
  function SumIncome(data: seq<CashFlowData>): real
  {
    if data == [] then 0.0 else SumIncome(data[..|data| - 1]) + data[|data| - 1].income
  }

  function SumExpenses(data: seq<CashFlowData>): real
  {
    if data == [] then 0.0 else SumExpenses(data[..|data| - 1]) + data[|data| - 1].expenses
  }

  function SumNet(data: seq<CashFlowData>): real
  {
    if data == [] then 0.0 else SumNet(data[..|data| - 1]) + data[|data| - 1].netCashFlow
  }

  /** The balance before month k: 0 before the first month. */
  function Opening(data: seq<CashFlowData>, k: nat): real
    requires k <= |data|
  {
    if k == 0 then 0.0 else data[k - 1].cumulativeBalance
  }

  /** Month m's net is its income minus its expenses, and its cumulative balance is the
      balance before it plus its net. */
  ghost predicate MonthBalanced(data: seq<CashFlowData>, m: nat)
    requires m < |data|
  {
    data[m].netCashFlow == data[m].income - data[m].expenses
    && data[m].cumulativeBalance == Opening(data, m) + data[m].netCashFlow
  }

  /** Every month is balanced against the one before it. */
  ghost predicate WellFormedFlow(data: seq<CashFlowData>)
  {
    forall m: nat :: m < |data| ==> MonthBalanced(data, m)
  }

  /** A month balanced against the end of a well-formed flow extends it. */
  lemma WellFormedAppend(data: seq<CashFlowData>, month: CashFlowData)
    requires WellFormedFlow(data)
    requires month.netCashFlow == month.income - month.expenses
    requires month.cumulativeBalance == Opening(data, |data|) + month.netCashFlow
    ensures WellFormedFlow(data + [month])
  {
    var h := data + [month];
    forall m: nat | m < |h| ensures MonthBalanced(h, m) {
      if m < |data| {
        assert MonthBalanced(data, m);
        assert h[m] == data[m];
        assert Opening(h, m) == Opening(data, m);
      }
    }
  }

  /** In a well-formed flow the last cumulative balance is the total net flow, and the total
      net flow is total income minus total expenses. */
  lemma {:induction false} WellFormedFlowTotals(data: seq<CashFlowData>)
    requires WellFormedFlow(data)
    ensures SumNet(data) == SumIncome(data) - SumExpenses(data)
    ensures data != [] ==> SumNet(data) == data[|data| - 1].cumulativeBalance
  {
    if data != [] {
      var prefix := data[..|data| - 1];
      forall m: nat | m < |prefix| ensures MonthBalanced(prefix, m) {
        assert MonthBalanced(data, m);
        assert prefix[m] == data[m];
        assert Opening(prefix, m) == Opening(data, m);
      }
      WellFormedFlowTotals(prefix);
      assert MonthBalanced(data, |data| - 1);
      if prefix != [] {
        assert prefix[|prefix| - 1] == data[|data| - 2];
      }
    }
  }

  /** `FinancialMetrics`; the breakdowns are keyed by category. */
  datatype FinancialMetrics = FinancialMetrics(
    totalRevenue: real,
    totalExpenses: real,
    netProfit: real,
    profitMargin: real,
    operatingMargin: real,
    cashFlowTrend: string,
    expenseBreakdown: map<CategoryType, real>,
    revenueBreakdown: map<CategoryType, real>)

  const DefaultDurationMonths: int := 12

  /** `SimulationScenario`: `parameters` is an open map from knob name to number. */
  datatype SimulationScenario = SimulationScenario(
    name: string,
    description: string,
    parameters: map<string, real>,
    durationMonths: int)

  /** A scenario built without `duration_months` runs for the default twelve months. */
  function NewScenario(name: string, description: string, parameters: map<string, real>)
    : (s: SimulationScenario)
    ensures s.durationMonths == 12
    ensures s.name == name && s.description == description && s.parameters == parameters
  {
    SimulationScenario(name, description, parameters, DefaultDurationMonths)
  }

  /** A value the simulation puts in its key-metrics dictionary: a number or Python's None. */
  datatype MetricValue = Number(x: real) | Null

  /** `SimulationResult` as declared: `key_metrics` maps to plain floats. */
  datatype SimulationResult = SimulationResult(
    scenarioName: string,
    projectedCashFlow: seq<CashFlowData>,
    keyMetrics: map<string, real>,
    recommendations: seq<string>,
    riskAssessment: string,
    confidenceScore: UnitInterval)

  /** Building a `SimulationResult` as declared: pydantic rejects any key metric that is
      None (it is not a float) and any confidence outside [0, 1]. */
  function ValidateSimulationResult(
    name: string, flow: seq<CashFlowData>, metrics: map<string, MetricValue>,
    recommendations: seq<string>, risk: string, confidence: real)
    : (r: Result<SimulationResult, string>)
    ensures r.Success? <==> (forall k :: k in metrics ==> metrics[k].Number?) && 0.0 <= confidence <= 1.0
    ensures r.Success? ==> (r.value.keyMetrics.Keys == metrics.Keys
      && forall k :: k in metrics ==> r.value.keyMetrics[k] == metrics[k].x)
  {
    if !(0.0 <= confidence <= 1.0) then Failure("confidence_score must lie in [0, 1]")
    else if exists k :: k in metrics && metrics[k].Null? then Failure("key_metrics value is not a valid float")
    else Success(SimulationResult(name, flow, map k | k in metrics :: metrics[k].x,
                                  recommendations, risk, confidence))
  }

  /** The result record with `key_metrics` typed as the simulation actually fills it,
      numbers or None. */
  datatype SimulationOutcome = SimulationOutcome(
    scenarioName: string,
    projectedCashFlow: seq<CashFlowData>,
    keyMetrics: map<string, MetricValue>,
    recommendations: seq<string>,
    riskAssessment: string,
    confidenceScore: UnitInterval)

  /** With optional metric values only the confidence bound can reject a result, and every
      metric survives unchanged, a missing break-even month included. */
  function NewSimulationOutcome(
    name: string, flow: seq<CashFlowData>, metrics: map<string, MetricValue>,
    recommendations: seq<string>, risk: string, confidence: real)
    : (r: Result<SimulationOutcome, string>)
    ensures r.Success? <==> 0.0 <= confidence <= 1.0
    ensures r.Success? ==> r.value.keyMetrics == metrics && r.value.projectedCashFlow == flow
  {
    if 0.0 <= confidence <= 1.0 then
      Success(SimulationOutcome(name, flow, metrics, recommendations, risk, confidence))
    else Failure("confidence_score must lie in [0, 1]")
  }

  /** `ChatResponse`; the free-form `analysis` dictionary is not modelled. */
  datatype ChatResponse = ChatResponse(
    response: string,
    recommendations: Option<seq<string>>,
    visualizations: Option<seq<string>>,
    confidence: UnitInterval)

  /** `AnalysisResponse`; the free-form `results` dictionary is not modelled. */
  datatype AnalysisResponse = AnalysisResponse(
    analysisType: string,
    insights: seq<string>,
    recommendations: seq<string>,
    visualizations: seq<string>,
    confidence: UnitInterval)
}
