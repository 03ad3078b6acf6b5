/** The what-if simulation engine: a month-by-month projection of cash flow from a baseline
    and a scenario's parameters, the key metrics drawn from it, the recommendation cascade
    and the three-level risk classifier. */
module Simulations {
  import opened Wrappers
  import opened Text
  import opened FinancialModels

  /** Scenario knobs; a key that is absent reads as 0 (`parameters.get(key, 0)`). */
  type Parameters = map<string, real>

  function Param(p: Parameters, key: string): real
  {
    if key in p then p[key] else 0.0
  }

  const RevenueChangeKey := "revenue_change_percent"
  const RevenueGrowthKey := "revenue_growth_rate"
  const ExpenseChangeKey := "expense_change_percent"
  const NewExpenseKey := "new_monthly_expense"

  /** `base_data`: the monthly figures a projection starts from. */
  datatype Baseline = Baseline(monthlyRevenue: real, monthlyExpenses: real, netCashFlow: real)

  /** The baseline is a twelfth of the yearly totals in the metrics, or all zeros when there
      are no metrics yet. */
  function BaselineFromMetrics(metrics: Option<FinancialMetrics>): (b: Baseline)
    ensures b.netCashFlow == b.monthlyRevenue - b.monthlyExpenses
    ensures metrics.None? ==> b == Baseline(0.0, 0.0, 0.0)
    ensures metrics.Some? ==> (12.0 * b.monthlyRevenue == metrics.value.totalRevenue
      && 12.0 * b.monthlyExpenses == metrics.value.totalExpenses)
  {
    match metrics
    case None => Baseline(0.0, 0.0, 0.0)
    case Some(m) =>
      Baseline(m.totalRevenue / 12.0, m.totalExpenses / 12.0, (m.totalRevenue - m.totalExpenses) / 12.0)
  }

  // ---- the projection, month by month (0-based month index m) -------------------------

  function IncomeAt(b: Baseline, p: Parameters, m: nat): real
  {
    b.monthlyRevenue * (1.0 + Param(p, RevenueChangeKey) / 100.0 + (Param(p, RevenueGrowthKey) / 100.0) * m as real)
  }

  function ExpensesAt(b: Baseline, p: Parameters): real
  {
    b.monthlyExpenses * (1.0 + Param(p, ExpenseChangeKey) / 100.0) + Param(p, NewExpenseKey)
  }

  function NetAt(b: Baseline, p: Parameters, m: nat): real
  {
    IncomeAt(b, p, m) - ExpensesAt(b, p)
  }

  /** The balance after month m: the nets of months 0..m added up from 0. */
  function CumulativeAt(b: Baseline, p: Parameters, m: nat): real
  {
    if m == 0 then NetAt(b, p, 0) else CumulativeAt(b, p, m - 1) + NetAt(b, p, m)
  }

  /** "Mes 1" for month index 0, and so on. */
  function MonthLabel(m: nat): string
  {
    "Mes " + NatToString(m + 1)
  }

  function ProjectedMonth(b: Baseline, p: Parameters, m: nat): CashFlowData
  {
    CashFlowData(MonthLabel(m), IncomeAt(b, p, m), ExpensesAt(b, p), NetAt(b, p, m), CumulativeAt(b, p, m))
  }

  /** `_run_simulation`: one entry per month for `duration_months` months (none when the
      duration is not positive), each the projected month, with the balance carried over. */
  method RunSimulation(scenario: SimulationScenario, base: Baseline, durationMonths: int)
    returns (data: seq<CashFlowData>)
    ensures |data| == if durationMonths > 0 then durationMonths else 0
    ensures forall m :: 0 <= m < |data| ==> data[m] == ProjectedMonth(base, scenario.parameters, m)
    ensures WellFormedFlow(data)
  {
    var parameters := scenario.parameters;
    var revenueMultiplier := Param(parameters, RevenueChangeKey) / 100.0;
    var revenueGrowthRate := Param(parameters, RevenueGrowthKey) / 100.0;
    var expenseMultiplier := Param(parameters, ExpenseChangeKey) / 100.0;
    var newExpenseMonthly := Param(parameters, NewExpenseKey);

    data := [];
    var cumulativeBalance := 0.0;
    var month := 0;
    while month < durationMonths
      invariant 0 <= month
      invariant month <= if durationMonths > 0 then durationMonths else 0
      invariant |data| == month
      invariant forall m :: 0 <= m < month ==> data[m] == ProjectedMonth(base, parameters, m)
      invariant cumulativeBalance == if month == 0 then 0.0 else CumulativeAt(base, parameters, month - 1)
    {
      var monthlyRevenue := base.monthlyRevenue * (1.0 + revenueMultiplier + revenueGrowthRate * month as real);
      var monthlyExpenses := base.monthlyExpenses * (1.0 + expenseMultiplier) + newExpenseMonthly;
      var netCashFlow := monthlyRevenue - monthlyExpenses;
      assert monthlyRevenue == IncomeAt(base, parameters, month);
      assert monthlyExpenses == ExpensesAt(base, parameters);
      ProjectedMonthIs(base, parameters, month, cumulativeBalance, monthlyRevenue, monthlyExpenses);
      cumulativeBalance := cumulativeBalance + netCashFlow;
      var entry := CashFlowData("Mes " + NatToString(month + 1), monthlyRevenue, monthlyExpenses,
                                netCashFlow, cumulativeBalance);
      data := data + [entry];
      month := month + 1;
    }
    ProjectionWellFormed(base, parameters, data);
  }

  /** One pass of the loop builds the projected month from the balance carried over. */
  lemma ProjectedMonthIs(b: Baseline, p: Parameters, m: nat, carried: real, income: real, expenses: real)
    requires carried == if m == 0 then 0.0 else CumulativeAt(b, p, m - 1)
    requires income == IncomeAt(b, p, m) && expenses == ExpensesAt(b, p)
    ensures CashFlowData("Mes " + NatToString(m + 1), income, expenses, income - expenses, carried + (income - expenses))
            == ProjectedMonth(b, p, m)
  {
    assert NetAt(b, p, m) == income - expenses;
  }

  /** A projection carries its balance forward month by month. */
  lemma ProjectionWellFormed(b: Baseline, p: Parameters, data: seq<CashFlowData>)
    requires forall m :: 0 <= m < |data| ==> data[m] == ProjectedMonth(b, p, m)
    ensures WellFormedFlow(data)
  {
    forall m: nat | m < |data| ensures MonthBalanced(data, m) {
      if m > 0 {
        assert data[m - 1] == ProjectedMonth(b, p, m - 1);
      }
    }
  }

  /** Months are labelled "Mes " followed by their 1-based number, which reads back as that number. */
  lemma MonthLabelNumbers(m: nat)
    ensures StartsWith(MonthLabel(m), "Mes ")
    ensures ParseInt(MonthLabel(m)[4..]) == Some(m + 1)
  {
    assert MonthLabel(m)[4..] == NatToString(m + 1);
    ParseIntOfNatToString(m + 1);
  }

  /** Income grows linearly: every month adds the same amount, base revenue times the growth rate. */
  lemma IncomeIsLinear(b: Baseline, p: Parameters, m: nat)
    ensures IncomeAt(b, p, m) == IncomeAt(b, p, 0) + m as real * (b.monthlyRevenue * Param(p, RevenueGrowthKey) / 100.0)
    ensures IncomeAt(b, p, 0) == b.monthlyRevenue * (1.0 + Param(p, RevenueChangeKey) / 100.0)
  {
  }

  /** With none of the four knobs set, every month repeats the baseline exactly. */
  lemma ZeroScenarioIdentity(b: Baseline, p: Parameters, m: nat)
    requires RevenueChangeKey !in p && RevenueGrowthKey !in p
    requires ExpenseChangeKey !in p && NewExpenseKey !in p
    ensures IncomeAt(b, p, m) == b.monthlyRevenue
    ensures ExpensesAt(b, p) == b.monthlyExpenses
    ensures NetAt(b, p, m) == b.monthlyRevenue - b.monthlyExpenses
  {
  }

  /** Closed form of the balance after month m: (m+1) months of the month-0 net, plus the
      growth contributions 0 + 1 + ... + m. */
  lemma {:induction false} CumulativeClosedForm(b: Baseline, p: Parameters, m: nat)
    ensures CumulativeAt(b, p, m)
      == (m as real + 1.0) * NetAt(b, p, 0)
         + (m as real * (m as real + 1.0) / 2.0) * (b.monthlyRevenue * Param(p, RevenueGrowthKey) / 100.0)
  {
    if m > 0 {
      CumulativeClosedForm(b, p, m - 1);
      ClosedFormNextMonth(b, p, m);
    }
  }

  /** The induction step of the closed form, from month m-1 to month m. */
  lemma ClosedFormNextMonth(b: Baseline, p: Parameters, m: nat)
    requires m > 0
    requires CumulativeAt(b, p, m - 1)
      == ((m - 1) as real + 1.0) * NetAt(b, p, 0)
         + ((m - 1) as real * ((m - 1) as real + 1.0) / 2.0) * (b.monthlyRevenue * Param(p, RevenueGrowthKey) / 100.0)
    ensures CumulativeAt(b, p, m)
      == (m as real + 1.0) * NetAt(b, p, 0)
         + (m as real * (m as real + 1.0) / 2.0) * (b.monthlyRevenue * Param(p, RevenueGrowthKey) / 100.0)
  {
    var g := b.monthlyRevenue * Param(p, RevenueGrowthKey) / 100.0;
    var c, net := CumulativeAt(b, p, m - 1), NetAt(b, p, m);
    NetIsLinear(b, p, m);
    ClosedFormStep((m - 1) as real, m as real, NetAt(b, p, 0), g, c, net);
  }

  /** Each month's net is the month-0 net plus m growth increments. */
  lemma NetIsLinear(b: Baseline, p: Parameters, m: nat)
    ensures NetAt(b, p, m) == NetAt(b, p, 0) + m as real * (b.monthlyRevenue * Param(p, RevenueGrowthKey) / 100.0)
  {
    IncomeIsLinear(b, p, m);
  }

  /** The arithmetic of one induction step: adding month k's net n0 + k*g to the closed
      form for j = k-1 months gives the closed form for k months. */
  lemma ClosedFormStep(j: real, k: real, n0: real, g: real, c: real, net: real)
    requires k == j + 1.0
    requires c == (j + 1.0) * n0 + (j * (j + 1.0) / 2.0) * g
    requires net == n0 + k * g
    ensures c + net == (k + 1.0) * n0 + (k * (k + 1.0) / 2.0) * g
  {
    assert (k - 1.0) * k / 2.0 + k == k * (k + 1.0) / 2.0;
    calc {
      c + net;
      (k * n0 + n0) + (((k - 1.0) * k / 2.0) * g + k * g);
      (k + 1.0) * n0 + ((k - 1.0) * k / 2.0 + k) * g;
      (k + 1.0) * n0 + (k * (k + 1.0) / 2.0) * g;
    }
  }

  // ---- key metrics ---------------------------------------------------------------------

  /** The 1-based number of the first month, from month index i on, whose cumulative balance
      is not negative. */
  function FirstNonNegativeFrom(data: seq<CashFlowData>, i: nat): Option<nat>
    requires i <= |data|
    decreases |data| - i
  {
    if i == |data| then None
    else if data[i].cumulativeBalance >= 0.0 then Some(i + 1)
    else FirstNonNegativeFrom(data, i + 1)
  }

  function BreakEvenMonth(data: seq<CashFlowData>): Option<nat>
  {
    FirstNonNegativeFrom(data, 0)
  }

  /** The break-even month is the first month whose balance is not negative, counted from 1,
      and it is absent exactly when every balance is negative. */
  lemma BreakEvenMonthIsFirst(data: seq<CashFlowData>)
    ensures BreakEvenMonth(data).None? <==> forall i :: 0 <= i < |data| ==> data[i].cumulativeBalance < 0.0
    ensures BreakEvenMonth(data).Some? ==>
      var k := BreakEvenMonth(data).value;
      1 <= k <= |data| && data[k - 1].cumulativeBalance >= 0.0
      && forall i :: 0 <= i < k - 1 ==> data[i].cumulativeBalance < 0.0
  {
    FirstNonNegativeFromIsFirst(data, 0);
  }

  lemma {:induction false} FirstNonNegativeFromIsFirst(data: seq<CashFlowData>, i: nat)
    requires i <= |data|
    requires forall j :: 0 <= j < i ==> data[j].cumulativeBalance < 0.0
    ensures FirstNonNegativeFrom(data, i).None? <==> forall j :: 0 <= j < |data| ==> data[j].cumulativeBalance < 0.0
    ensures FirstNonNegativeFrom(data, i).Some? ==>
      var k := FirstNonNegativeFrom(data, i).value;
      1 <= k <= |data| && data[k - 1].cumulativeBalance >= 0.0
      && forall j :: 0 <= j < k - 1 ==> data[j].cumulativeBalance < 0.0
    decreases |data| - i
  {
    if i < |data| && data[i].cumulativeBalance < 0.0 {
      FirstNonNegativeFromIsFirst(data, i + 1);
    }
  }

  /** When the balances only go up and first reach 0 in month k, the break-even month is k. */
  lemma BreakEvenOfIncreasingBalance(data: seq<CashFlowData>, k: nat)
    requires forall i :: 0 < i < |data| ==> data[i - 1].cumulativeBalance < data[i].cumulativeBalance
    requires 1 <= k <= |data| && data[k - 1].cumulativeBalance >= 0.0
    requires k == 1 || data[k - 2].cumulativeBalance < 0.0
    ensures BreakEvenMonth(data) == Some(k)
  {
    assert forall i :: 0 <= i < k - 1 ==> data[i].cumulativeBalance < 0.0 by {
      forall i | 0 <= i < k - 1 ensures data[i].cumulativeBalance < 0.0 {
        BalanceBelow(data, i, k - 2);
      }
    }
    BreakEvenMonthIsFirst(data);
  }

  lemma {:induction false} BalanceBelow(data: seq<CashFlowData>, i: nat, j: nat)
    requires forall n :: 0 < n < |data| ==> data[n - 1].cumulativeBalance < data[n].cumulativeBalance
    requires i <= j < |data|
    ensures data[i].cumulativeBalance <= data[j].cumulativeBalance
    decreases j - i
  {
    if i < j {
      BalanceBelow(data, i, j - 1);
    }
  }

  /** `trend_percentage`: the change from the first month's net to the last one's, in percent
      of the first; 0 when the first is 0. */
  function TrendPercentage(first: real, last: real): real
  {
    if first != 0.0 then (last - first) / first * 100.0 else 0.0
  }

  /** The trend percentage undoes into the last month's net, and is 0 exactly when the first
      month's net is 0 or the two nets are equal. */
  lemma TrendPercentageMeaning(first: real, last: real)
    ensures first != 0.0 ==> last == first * (1.0 + TrendPercentage(first, last) / 100.0)
    ensures TrendPercentage(first, last) == 0.0 <==> first == 0.0 || last == first
    ensures first > 0.0 ==> (TrendPercentage(first, last) > 0.0 <==> last > first)
  {
    if first != 0.0 {
      var t := TrendPercentage(first, last);
      assert t == (last - first) / first * 100.0;
      assert t / 100.0 == (last - first) / first;
      assert first * (t / 100.0) == last - first;
    }
  }

  const TotalIncomeKey := "total_projected_income"
  const TotalExpensesKey := "total_projected_expenses"
  const NetFlowKey := "net_projected_cash_flow"
  const AverageFlowKey := "average_monthly_flow"
  const TrendKey := "trend_percentage"
  const BreakEvenKey := "break_even_month"
  const FinalBalanceKey := "final_balance"

  const MetricKeys: set<string> :=
    {TotalIncomeKey, TotalExpensesKey, NetFlowKey, AverageFlowKey, TrendKey, BreakEvenKey, FinalBalanceKey}

  function OptionalMonth(k: Option<nat>): MetricValue
  {
    if k.Some? then Number(k.value as real) else Null
  }

  /** `_calculate_key_metrics`: nothing for an empty projection; otherwise the three totals,
      the average net flow, the trend percentage, the break-even month (None when the
      balance never recovers) and the final balance. */
  method CalculateKeyMetrics(data: seq<CashFlowData>) returns (metrics: map<string, MetricValue>)
    ensures data == [] ==> metrics == map[]
    ensures data != [] ==> (metrics.Keys == MetricKeys
      && metrics[TotalIncomeKey] == Number(SumIncome(data))
      && metrics[TotalExpensesKey] == Number(SumExpenses(data))
      && metrics[NetFlowKey] == Number(SumNet(data))
      && metrics[AverageFlowKey] == Number(SumNet(data) / |data| as real)
      && metrics[TrendKey] == Number(TrendPercentage(data[0].netCashFlow, data[|data| - 1].netCashFlow))
      && metrics[BreakEvenKey] == OptionalMonth(BreakEvenMonth(data))
      && metrics[FinalBalanceKey] == Number(data[|data| - 1].cumulativeBalance))
    ensures forall k :: k in metrics && k != BreakEvenKey ==> metrics[k].Number?
  {
    if data == [] {
      return map[];
    }
    var totalIncome := SumIncome(data);
    var totalExpenses := SumExpenses(data);
    var netCashFlow := SumNet(data);

    var firstMonthFlow := data[0].netCashFlow;
    var lastMonthFlow := data[|data| - 1].netCashFlow;
    var trendPercentage := if firstMonthFlow != 0.0 then (lastMonthFlow - firstMonthFlow) / firstMonthFlow * 100.0 else 0.0;

    var breakEvenMonth: Option<nat> := None;
    var i := 0;
    while i < |data|
      invariant 0 <= i <= |data|
      invariant FirstNonNegativeFrom(data, i) == BreakEvenMonth(data)
      decreases |data| - i
    {
      if data[i].cumulativeBalance >= 0.0 {
        breakEvenMonth := Some(i + 1);
        break;
      }
      i := i + 1;
    }
    assert breakEvenMonth == BreakEvenMonth(data);

    metrics := map[
      TotalIncomeKey := Number(totalIncome),
      TotalExpensesKey := Number(totalExpenses),
      NetFlowKey := Number(netCashFlow),
      AverageFlowKey := Number(netCashFlow / |data| as real),
      TrendKey := Number(trendPercentage),
      BreakEvenKey := OptionalMonth(breakEvenMonth),
      FinalBalanceKey := Number(data[|data| - 1].cumulativeBalance)
    ];
  }

  // ---- recommendations -----------------------------------------------------------------

  const NoDataRecommendation := "No hay datos suficientes para generar recomendaciones"
  const AdjustRecommendation := "Considerar ajustar parámetros del escenario para evitar balance negativo"
  const ViableRecommendation := "El escenario es financieramente viable"
  const PositiveTrendRecommendation := "El escenario muestra tendencia positiva"
  const NegativeTrendRecommendation := "Monitorear de cerca la tendencia negativa"

  const HiringKeywords: seq<string> := ["contratación", "empleado"]
  const HiringRecommendations: seq<string> := [
    "Considerar período de prueba antes de contratación permanente",
    "Evaluar impacto en productividad y ingresos",
    "Preparar plan de contingencia en caso de necesidad de reducción"
  ]
  const InvestmentKeywords: seq<string> := ["inversión", "compra"]
  const InvestmentRecommendations: seq<string> := [
    "Evaluar opciones de financiamiento",
    "Considerar leasing como alternativa",
    "Calcular período de recuperación de inversión"
  ]

  const MaxRecommendations: nat := 5

  function FinancingRecommendation(count: nat): string
  {
    "Preparar financiamiento para " + NatToString(count) + " meses con flujo negativo"
  }

  /** Number of months whose net flow is negative. */
  function CountNegative(data: seq<CashFlowData>): (n: nat)
    ensures n <= |data|
  {
    if data == [] then 0
    else CountNegative(data[..|data| - 1]) + (if data[|data| - 1].netCashFlow < 0.0 then 1 else 0)
  }

  /** There is a negative month exactly when the count of negative months is not 0. */
  lemma {:induction false} CountNegativePositive(data: seq<CashFlowData>)
    ensures CountNegative(data) > 0 <==> exists i :: 0 <= i < |data| && data[i].netCashFlow < 0.0
  {
    if data != [] {
      var prefix := data[..|data| - 1];
      CountNegativePositive(prefix);
      if exists i :: 0 <= i < |prefix| && prefix[i].netCashFlow < 0.0 {
        var i :| 0 <= i < |prefix| && prefix[i].netCashFlow < 0.0;
        assert data[i] == prefix[i];
      }
      if exists i :: 0 <= i < |data| && data[i].netCashFlow < 0.0 {
        var i :| 0 <= i < |data| && data[i].netCashFlow < 0.0;
        if i < |prefix| {
          assert prefix[i] == data[i];
        }
      }
    }
  }

  /** The recommendations every rule contributes, in rule order, before truncation. */
  function CashFlowRule(data: seq<CashFlowData>): seq<string>
  {
    var negative := CountNegative(data);
    if negative > 0 then [FinancingRecommendation(negative)] else []
  }

  function BalanceRule(finalBalance: real): seq<string>
  {
    if finalBalance < 0.0 then [AdjustRecommendation]
    else if finalBalance > 0.0 then [ViableRecommendation]
    else []
  }

  function TrendRule(firstFlow: real, lastFlow: real): seq<string>
  {
    if lastFlow > firstFlow then [PositiveTrendRecommendation]
    else if lastFlow < firstFlow then [NegativeTrendRecommendation]
    else []
  }

  /** Keyword rule on the lower-cased scenario name; hiring is checked first. */
  function ScenarioRule(lowerName: string): seq<string>
  {
    if ContainsAny(lowerName, HiringKeywords) then HiringRecommendations
    else if ContainsAny(lowerName, InvestmentKeywords) then InvestmentRecommendations
    else []
  }

  function RuleCascade(data: seq<CashFlowData>, scenarioName: string): seq<string>
    requires data != []
  {
    CashFlowRule(data)
    + BalanceRule(data[|data| - 1].cumulativeBalance)
    + TrendRule(data[0].netCashFlow, data[|data| - 1].netCashFlow)
    + ScenarioRule(Lower(scenarioName))
  }

  /** `_generate_recommendations`: the sentinel for an empty projection; otherwise the rule
      cascade cut to its first five items. */
  method GenerateRecommendations(data: seq<CashFlowData>, scenario: SimulationScenario)
    returns (recommendations: seq<string>)
    ensures data == [] ==> recommendations == [NoDataRecommendation]
    ensures data != [] ==> recommendations == Take(RuleCascade(data, scenario.name), MaxRecommendations)
    ensures |recommendations| <= MaxRecommendations
  {
    if data == [] {
      return [NoDataRecommendation];
    }
    recommendations := [];

    var negativeMonths := CountNegative(data);
    if negativeMonths > 0 {
      recommendations := recommendations + [FinancingRecommendation(negativeMonths)];
    }
    assert recommendations == CashFlowRule(data);

    var finalBalance := data[|data| - 1].cumulativeBalance;
    if finalBalance < 0.0 {
      recommendations := recommendations + [AdjustRecommendation];
    } else if finalBalance > 0.0 {
      recommendations := recommendations + [ViableRecommendation];
    }
    assert recommendations == CashFlowRule(data) + BalanceRule(finalBalance);

    var firstFlow := data[0].netCashFlow;
    var lastFlow := data[|data| - 1].netCashFlow;
    if lastFlow > firstFlow {
      recommendations := recommendations + [PositiveTrendRecommendation];
    } else if lastFlow < firstFlow {
      recommendations := recommendations + [NegativeTrendRecommendation];
    }
    ghost var head := recommendations;
    assert head == CashFlowRule(data) + BalanceRule(finalBalance) + TrendRule(firstFlow, lastFlow);

    var scenarioName := Lower(scenario.name);
    if ContainsAny(scenarioName, HiringKeywords) {
      recommendations := recommendations + HiringRecommendations;
    } else if ContainsAny(scenarioName, InvestmentKeywords) {
      recommendations := recommendations + InvestmentRecommendations;
    }
    assert recommendations == head + ScenarioRule(scenarioName);

    recommendations := Take(recommendations, MaxRecommendations);
  }

  /** The notes of the three analysis rules never lose their place to truncation: they open
      the list, the financing note first whenever a month is negative, the reconsider note
      when the final balance is negative, the viable note when it is positive, and a trend
      note whenever the last month's net differs from the first one's. */
  lemma AnalysisRulesSurvive(data: seq<CashFlowData>, scenarioName: string)
    requires data != []
    ensures var head := CashFlowRule(data)
        + BalanceRule(data[|data| - 1].cumulativeBalance)
        + TrendRule(data[0].netCashFlow, data[|data| - 1].netCashFlow);
      var recs := Take(RuleCascade(data, scenarioName), MaxRecommendations);
      && |head| <= 3 && |head| <= |recs| && recs[..|head|] == head
      && (CountNegative(data) > 0 ==> recs[0] == FinancingRecommendation(CountNegative(data)))
      && (data[|data| - 1].cumulativeBalance < 0.0 ==> AdjustRecommendation in recs)
      && (data[|data| - 1].cumulativeBalance > 0.0 ==> ViableRecommendation in recs)
      && (data[|data| - 1].netCashFlow > data[0].netCashFlow ==> PositiveTrendRecommendation in recs)
      && (data[|data| - 1].netCashFlow < data[0].netCashFlow ==> NegativeTrendRecommendation in recs)
  {
    var cash := CashFlowRule(data);
    var balance := BalanceRule(data[|data| - 1].cumulativeBalance);
    var trend := TrendRule(data[0].netCashFlow, data[|data| - 1].netCashFlow);
    var head := cash + balance + trend;
    var tail := ScenarioRule(Lower(scenarioName));
    var recs := Take(RuleCascade(data, scenarioName), MaxRecommendations);
    assert RuleCascade(data, scenarioName) == head + tail;
    assert recs[..|head|] == head;
    if balance != [] {
      assert recs[|cash|] == balance[0];
    }
    if trend != [] {
      assert recs[|cash| + |balance|] == trend[0];
    }
  }

  /** After the analysis notes come the scenario notes, at least two of them: the hiring notes
      when the lower-cased name mentions hiring, the investment notes when it mentions
      investment and not hiring (hiring takes precedence), and none otherwise. */
  lemma ScenarioNotesFollow(data: seq<CashFlowData>, scenarioName: string)
    requires data != []
    ensures var n := |CashFlowRule(data)
        + BalanceRule(data[|data| - 1].cumulativeBalance)
        + TrendRule(data[0].netCashFlow, data[|data| - 1].netCashFlow)|;
      var recs := Take(RuleCascade(data, scenarioName), MaxRecommendations);
      var lower := Lower(scenarioName);
      && n <= |recs|
      && (ContainsAny(lower, HiringKeywords) ==>
            |recs| >= n + 2 && recs[n..] == HiringRecommendations[..|recs| - n])
      && (!ContainsAny(lower, HiringKeywords) && ContainsAny(lower, InvestmentKeywords) ==>
            |recs| >= n + 2 && recs[n..] == InvestmentRecommendations[..|recs| - n])
      && (!ContainsAny(lower, HiringKeywords) && !ContainsAny(lower, InvestmentKeywords) ==>
            |recs| == n)
  {
    var head := CashFlowRule(data)
      + BalanceRule(data[|data| - 1].cumulativeBalance)
      + TrendRule(data[0].netCashFlow, data[|data| - 1].netCashFlow);
    var tail := ScenarioRule(Lower(scenarioName));
    var recs := Take(RuleCascade(data, scenarioName), MaxRecommendations);
    assert RuleCascade(data, scenarioName) == head + tail;
    assert |head| <= 3;
    assert recs[|head|..] == tail[..|recs| - |head|];
  }

  // ---- risk ----------------------------------------------------------------------------

  /** The thresholds of the risk classifier. */
  const HighNegativePercentage: real := 50.0
  const MediumNegativePercentage: real := 25.0
  const HighRiskBalance: real := -10000.0

  datatype RiskLevel = InsufficientData | High | Medium | Low

  function RiskLabel(level: RiskLevel): string
  {
    match level
    case InsufficientData => "Alto - Sin datos suficientes"
    case High => "Alto - Múltiples meses con flujo negativo o balance muy negativo"
    case Medium => "Medio - Algunos meses problemáticos o balance negativo"
    case Low => "Bajo - Flujo de caja estable y balance positivo"
  }

  function NegativePercentage(data: seq<CashFlowData>): real
    requires data != []
  {
    (CountNegative(data) as real / |data| as real) * 100.0
  }

  function RiskLevelOf(data: seq<CashFlowData>): RiskLevel
  {
    if data == [] then InsufficientData
    else
      var percentage := NegativePercentage(data);
      var finalBalance := data[|data| - 1].cumulativeBalance;
      if percentage > HighNegativePercentage || finalBalance < HighRiskBalance then High
      else if percentage > MediumNegativePercentage || finalBalance < 0.0 then Medium
      else Low
  }

  /** `_assess_risk`. */
  function AssessRisk(data: seq<CashFlowData>): string
  {
    RiskLabel(RiskLevelOf(data))
  }

  /** The percentage thresholds in whole months: High when more than half the months are
      negative or the final balance is below -10000; Medium when, short of that, more than a
      quarter are negative or the balance is below 0; Low otherwise. */
  lemma RiskInWholeMonths(data: seq<CashFlowData>)
    requires data != []
    ensures var n, neg, fin := |data|, CountNegative(data), data[|data| - 1].cumulativeBalance;
      && (RiskLevelOf(data) == High <==> 2 * neg > n || fin < -10000.0)
      && (RiskLevelOf(data) == Medium <==> !(2 * neg > n || fin < -10000.0) && (4 * neg > n || fin < 0.0))
      && (RiskLevelOf(data) == Low <==> 4 * neg <= n && fin >= 0.0)
  {
    var n, neg := |data| as real, CountNegative(data) as real;
    PercentageAbove(neg, n, 50.0);
    PercentageAbove(neg, n, 25.0);
  }

  /** A percentage neg/n*100 is above t exactly when 100*neg is above t*n. */
  lemma PercentageAbove(neg: real, n: real, t: real)
    requires n > 0.0
    ensures neg / n * 100.0 > t <==> neg * 100.0 > t * n
  {
    var q := neg / n;
    assert q * n == neg;
    assert (q * 100.0) * n == neg * 100.0;
    if q * 100.0 > t {
      assert (q * 100.0) * n > t * n;
    } else {
      assert (q * 100.0) * n <= t * n;
    }
  }

  /** The boundary: exactly half the months negative with a final balance of 0 is Medium, not High. */
  lemma HalfNegativeIsNotHigh(data: seq<CashFlowData>)
    requires data != [] && 2 * CountNegative(data) == |data|
    requires data[|data| - 1].cumulativeBalance == 0.0
    ensures RiskLevelOf(data) == Medium
  {
    RiskInWholeMonths(data);
  }

  /** The four labels are distinct, so the label determines the level. */
  lemma RiskLabelsDistinct(a: RiskLevel, b: RiskLevel)
    ensures RiskLabel(a) == RiskLabel(b) <==> a == b
  {
    if a != b {
      RiskLabelLength(a);
      RiskLabelLength(b);
      assert |RiskLabel(a)| != |RiskLabel(b)|;
    }
  }

  /** The labels have four different lengths. */
  lemma RiskLabelLength(level: RiskLevel)
    ensures |RiskLabel(level)| == match level
      case InsufficientData => 28
      case High => 64
      case Medium => 54
      case Low => 47
  {
    match level
    case InsufficientData =>
    case High =>
    case Medium =>
    case Low =>
  }

  // ---- the two reference scenarios -----------------------------------------------------

  /** Revenue 10000, expenses 8000, +10% revenue, three months: net 3000 a month, balances
      3000, 6000 and 9000, break-even in month 1, low risk. */
  lemma ReferenceScenarioGrowing()
    ensures var b := Baseline(10000.0, 8000.0, 2000.0);
      var p := map[RevenueChangeKey := 10.0, ExpenseChangeKey := 0.0, NewExpenseKey := 0.0, RevenueGrowthKey := 0.0];
      var data := [ProjectedMonth(b, p, 0), ProjectedMonth(b, p, 1), ProjectedMonth(b, p, 2)];
      && data[0].income == 11000.0 && data[0].expenses == 8000.0 && data[0].netCashFlow == 3000.0
      && data[0].cumulativeBalance == 3000.0
      && data[1].netCashFlow == 3000.0 && data[1].cumulativeBalance == 6000.0
      && data[2].cumulativeBalance == 9000.0
      && BreakEvenMonth(data) == Some(1)
      && RiskLevelOf(data) == Low
  {
    var b := Baseline(10000.0, 8000.0, 2000.0);
    var p := map[RevenueChangeKey := 10.0, ExpenseChangeKey := 0.0, NewExpenseKey := 0.0, RevenueGrowthKey := 0.0];
    var data := [ProjectedMonth(b, p, 0), ProjectedMonth(b, p, 1), ProjectedMonth(b, p, 2)];
    assert Param(p, RevenueGrowthKey) == 0.0 && Param(p, RevenueChangeKey) == 10.0;
    assert Param(p, ExpenseChangeKey) == 0.0 && Param(p, NewExpenseKey) == 0.0;
    assert data[0].netCashFlow == 3000.0 && data[1].netCashFlow == 3000.0 && data[2].netCashFlow == 3000.0;
    assert data[..2] == [data[0], data[1]];
    assert data[..2][..1] == [data[0]];
    assert [data[0]][..0] == [];
    assert CountNegative([data[0]]) == 0;
    assert CountNegative(data[..2]) == 0;
  }

  /** No revenue and 5000 of expenses for two months: net -5000 each month, balances -5000
      and -10000, a trend of 0, no break-even month, high risk (through the negative months:
      -10000 itself is not below the balance threshold). */
  lemma ReferenceScenarioNoRevenue()
    ensures var b := Baseline(0.0, 5000.0, -5000.0);
      var p: Parameters := map[];
      var data := [ProjectedMonth(b, p, 0), ProjectedMonth(b, p, 1)];
      && data[0].netCashFlow == -5000.0 && data[1].netCashFlow == -5000.0
      && data[0].cumulativeBalance == -5000.0 && data[1].cumulativeBalance == -10000.0
      && TrendPercentage(data[0].netCashFlow, data[1].netCashFlow) == 0.0
      && BreakEvenMonth(data) == None
      && RiskLevelOf(data) == High
  {
    var b := Baseline(0.0, 5000.0, -5000.0);
    var p: Parameters := map[];
    var data := [ProjectedMonth(b, p, 0), ProjectedMonth(b, p, 1)];
    assert CountNegative(data) == 2 by {
      assert data[..1] == [data[0]];
    }
  }

  // ---- the simulation endpoint's composition --------------------------------------------

  const SimulationConfidence: real := 0.8

  /** The body of `create_simulation` as written (the language-model analysis aside): the
      projection, its metrics, recommendations and risk packed into a `SimulationResult`,
      whose `key_metrics` must be plain floats. The result is rejected exactly when the
      projection has months and never breaks even, because `break_even_month` is then None. */
  method CreateSimulationAsWritten(scenario: SimulationScenario, base: Baseline)
    returns (result: Result<SimulationResult, string>)
    ensures result.Failure? <==>
      scenario.durationMonths > 0
      && forall m :: 0 <= m < scenario.durationMonths ==> CumulativeAt(base, scenario.parameters, m) < 0.0
  {
    var data := RunSimulation(scenario, base, scenario.durationMonths);
    var keyMetrics := CalculateKeyMetrics(data);
    var recommendations := GenerateRecommendations(data, scenario);
    var riskAssessment := AssessRisk(data);
    result := ValidateSimulationResult(scenario.name, data, keyMetrics, recommendations, riskAssessment, SimulationConfidence);
    if data != [] {
      OnlyBreakEvenCanBeNull(data, keyMetrics);
      NeverBreaksEven(base, scenario.parameters, data);
    }
  }

  /** Of the metrics of a non-empty projection only the break-even month can be None. */
  lemma OnlyBreakEvenCanBeNull(data: seq<CashFlowData>, metrics: map<string, MetricValue>)
    requires BreakEvenKey in metrics && metrics[BreakEvenKey] == OptionalMonth(BreakEvenMonth(data))
    requires forall k :: k in metrics && k != BreakEvenKey ==> metrics[k].Number?
    ensures (forall k :: k in metrics ==> metrics[k].Number?) <==> BreakEvenMonth(data).Some?
  {
  }

  /** A projection never breaks even exactly when every projected balance is negative. */
  lemma NeverBreaksEven(b: Baseline, p: Parameters, data: seq<CashFlowData>)
    requires forall m :: 0 <= m < |data| ==> data[m] == ProjectedMonth(b, p, m)
    ensures BreakEvenMonth(data).None? <==> forall m :: 0 <= m < |data| ==> CumulativeAt(b, p, m) < 0.0
  {
    BreakEvenMonthIsFirst(data);
    if forall i :: 0 <= i < |data| ==> data[i].cumulativeBalance < 0.0 {
      forall m | 0 <= m < |data| ensures CumulativeAt(b, p, m) < 0.0 {
        assert data[m] == ProjectedMonth(b, p, m);
      }
    } else {
      var i :| 0 <= i < |data| && data[i].cumulativeBalance >= 0.0;
      assert data[i] == ProjectedMonth(b, p, i);
      assert CumulativeAt(b, p, i) >= 0.0;
    }
  }

  /** The same composition with `key_metrics` holding optional values: it always succeeds and
      carries the scenario's name, the projection, every metric (a missing break-even month
      included), the recommendations, the risk and the fixed confidence. */
  method CreateSimulation(scenario: SimulationScenario, base: Baseline)
    returns (result: Result<SimulationOutcome, string>)
    ensures result.Success?
    ensures result.value.scenarioName == scenario.name
    ensures result.value.confidenceScore == SimulationConfidence
    ensures var proj := result.value.projectedCashFlow;
      |proj| == (if scenario.durationMonths > 0 then scenario.durationMonths else 0)
      && (forall m :: 0 <= m < |proj| ==> proj[m] == ProjectedMonth(base, scenario.parameters, m))
      && WellFormedFlow(proj)
    ensures var proj, metrics := result.value.projectedCashFlow, result.value.keyMetrics;
      proj == [] ==> metrics == map[] && result.value.recommendations == [NoDataRecommendation]
    ensures var proj, metrics := result.value.projectedCashFlow, result.value.keyMetrics;
      proj != [] ==> (metrics.Keys == MetricKeys
        && metrics[TotalIncomeKey] == Number(SumIncome(proj))
        && metrics[TotalExpensesKey] == Number(SumExpenses(proj))
        && metrics[NetFlowKey] == Number(SumNet(proj))
        && metrics[AverageFlowKey] == Number(SumNet(proj) / |proj| as real)
        && metrics[TrendKey] == Number(TrendPercentage(proj[0].netCashFlow, proj[|proj| - 1].netCashFlow))
        && metrics[BreakEvenKey] == OptionalMonth(BreakEvenMonth(proj))
        && metrics[FinalBalanceKey] == Number(proj[|proj| - 1].cumulativeBalance)
        && result.value.recommendations == Take(RuleCascade(proj, scenario.name), MaxRecommendations))
    ensures result.value.riskAssessment == AssessRisk(result.value.projectedCashFlow)
    ensures |result.value.recommendations| <= MaxRecommendations
  {
    var data := RunSimulation(scenario, base, scenario.durationMonths);
    var keyMetrics := CalculateKeyMetrics(data);
    var recommendations := GenerateRecommendations(data, scenario);
    var riskAssessment := AssessRisk(data);
    result := NewSimulationOutcome(scenario.name, data, keyMetrics, recommendations, riskAssessment, SimulationConfidence);
  }

  /** The input that shows the declared type is too narrow: the no-revenue scenario never
      breaks even. */
  lemma NoRevenueScenarioNeverBreaksEven(name: string)
    ensures var s := SimulationScenario(name, "", map[], 2);
      var b := Baseline(0.0, 5000.0, -5000.0);
      forall m :: 0 <= m < s.durationMonths ==> CumulativeAt(b, s.parameters, m) < 0.0
  {
    NoRevenueBalances(Baseline(0.0, 5000.0, -5000.0));
  }

  /** Losing 5000 a month from nothing: -5000 after one month and -10000 after two. */
  lemma NoRevenueBalances(b: Baseline)
    requires b.monthlyRevenue == 0.0 && b.monthlyExpenses == 5000.0
    ensures CumulativeAt(b, map[], 0) == -5000.0 && CumulativeAt(b, map[], 1) == -10000.0
    ensures forall m: nat :: m < 2 ==> CumulativeAt(b, map[], m) < 0.0
  {
    EmptyParametersNet(b, 0);
    EmptyParametersNet(b, 1);
    assert CumulativeAt(b, map[], 0) == -5000.0;
  }

  /** Without parameters every month repeats the baseline. */
  lemma EmptyParametersNet(b: Baseline, m: nat)
    ensures NetAt(b, map[], m) == b.monthlyRevenue - b.monthlyExpenses
  {
    var p: Parameters := map[];
    assert Param(p, RevenueChangeKey) == 0.0 && Param(p, RevenueGrowthKey) == 0.0;
    assert Param(p, ExpenseChangeKey) == 0.0 && Param(p, NewExpenseKey) == 0.0;
  }
}
