/** The reductions behind the analysis endpoints: the cash-flow summary of a period, the
    per-category expense and revenue breakdowns with their rankings, and the profitability
    figures. Each endpoint reads the data service's state, given here as a value. */
module Analysis {
  import opened Wrappers
  import opened Text
  import opened FinancialModels
  import DS = DataService

  // ---- errors --------------------------------------------------------------------------

  /** An `HTTPException`: a status code and a detail text. */
  datatype HttpError = HttpError(status: nat, detail: string)

  const NoCashFlowData := "No hay datos de flujo de caja disponibles"
  const NoTransactionData := "No hay datos de transacciones disponibles"
  const NoMetrics := "No hay métricas disponibles"
  const AnalysisErrorPrefix := "Error en análisis: "

  /** The `except Exception` clause every analysis endpoint ends with: whatever was raised
      inside the `try`, the endpoint's own 404 included, leaves as a 500 whose detail carries
      the inner exception's text ("<status>: <detail>"). */
  function Rewrapped(inner: HttpError): (e: HttpError)
    ensures e.status == 500
    ensures StartsWith(e.detail, AnalysisErrorPrefix)
    ensures |inner.detail| <= |e.detail| && e.detail[|e.detail| - |inner.detail|..] == inner.detail
  {
    HttpError(500, AnalysisErrorPrefix + NatToString(inner.status) + ": " + inner.detail)
  }

  // ---- cash flow -----------------------------------------------------------------------

  const Last6Months := "last_6_months"
  const Last3Months := "last_3_months"
  const DefaultPeriod := "last_12_months"

  /** The months a period keeps: the last six, the last three, or (for any other period
      name, the default included) all of them. */
  function FilterPeriod(history: seq<CashFlowData>, period: string): (r: seq<CashFlowData>)
    ensures |r| == if period == Last6Months && |history| > 6 then 6
                   else if period == Last3Months && |history| > 3 then 3
                   else |history|
    ensures r == history[|history| - |r|..]
  {
    if period == Last6Months then TakeLast(history, 6)
    else if period == Last3Months then TakeLast(history, 3)
    else history
  }

  /** The cash-flow trend of a period: it compares only the last two months. */
  function TwoPointTrend(data: seq<CashFlowData>): (trend: string)
    ensures trend == DS.Positive || trend == DS.Negative || trend == DS.Stable
    ensures trend == DS.Stable <==> |data| < 2
    ensures trend == DS.Positive <==>
      |data| >= 2 && data[|data| - 1].netCashFlow > data[|data| - 2].netCashFlow
    ensures trend == DS.Negative <==>
      |data| >= 2 && data[|data| - 1].netCashFlow <= data[|data| - 2].netCashFlow
  {
    if |data| >= 2 then
      (if data[|data| - 1].netCashFlow > data[|data| - 2].netCashFlow then DS.Positive else DS.Negative)
    else DS.Stable
  }

  /** The cash-flow endpoint's figures (the insight sentences are not modelled). */
  datatype CashFlowAnalysis = CashFlowAnalysis(
    period: string,
    totalIncome: real,
    totalExpenses: real,
    netCashFlow: real,
    averageMonthlyFlow: real,
    trend: string,
    monthlyData: seq<CashFlowData>)

  /** The sum of the nets over the number of months, 0 when there are none. */
  function MonthlyAverage(total: real, count: nat): (average: real)
    ensures count > 0 ==> average * (count as real) == total
    ensures count == 0 ==> average == 0.0
  {
    if count > 0 then total / (count as real) else 0.0
  }

  /** `analyze_cashflow` over the service's cash-flow history. */
  function AnalyzeCashflow(history: seq<CashFlowData>, period: string): (r: Result<CashFlowAnalysis, HttpError>)
    ensures r.Failure? <==> history == []
    ensures r.Failure? ==> r.error == Rewrapped(HttpError(404, NoCashFlowData))
    ensures r.Success? ==> r.value.period == period && r.value.monthlyData == FilterPeriod(history, period)
    ensures r.Success? ==> r.value.monthlyData != []
    ensures r.Success? ==>
      && r.value.totalIncome == SumIncome(r.value.monthlyData)
      && r.value.totalExpenses == SumExpenses(r.value.monthlyData)
      && r.value.netCashFlow == r.value.totalIncome - r.value.totalExpenses
    ensures r.Success? ==> r.value.trend == TwoPointTrend(r.value.monthlyData)
    ensures r.Success? ==>
      r.value.averageMonthlyFlow == MonthlyAverage(SumNet(r.value.monthlyData), |r.value.monthlyData|)
  {
    if history == [] then Failure(Rewrapped(HttpError(404, NoCashFlowData)))
    else
      var filtered := FilterPeriod(history, period);
      var totalIncome := SumIncome(filtered);
      var totalExpenses := SumExpenses(filtered);
      var average := MonthlyAverage(SumNet(filtered), |filtered|);
      Success(CashFlowAnalysis(period, totalIncome, totalExpenses, totalIncome - totalExpenses,
                               average, TwoPointTrend(filtered), filtered))
  }

  /** Every month's net is its income minus its expenses. A history the service generates
      has this, and so does any concatenation of such histories. */
  ghost predicate NetsConsistent(data: seq<CashFlowData>)
  {
    forall m :: 0 <= m < |data| ==> data[m].netCashFlow == data[m].income - data[m].expenses
  }

  lemma {:induction false} ConsistentNetsAddUp(data: seq<CashFlowData>)
    requires NetsConsistent(data)
    ensures SumNet(data) == SumIncome(data) - SumExpenses(data)
  {
    if data != [] {
      var prefix := data[..|data| - 1];
      assert forall m :: 0 <= m < |prefix| ==> prefix[m] == data[m];
      ConsistentNetsAddUp(prefix);
    }
  }

  /** With consistent nets the reported net flow is the sum of the months' nets, so the
      average times the number of months is the net flow. */
  lemma CashflowNetIsSumOfNets(history: seq<CashFlowData>, period: string)
    requires history != [] && NetsConsistent(history)
    ensures var a := AnalyzeCashflow(history, period).value;
      a.netCashFlow == SumNet(a.monthlyData)
      && a.averageMonthlyFlow == MonthlyAverage(a.netCashFlow, |a.monthlyData|)
  {
    var a := AnalyzeCashflow(history, period).value;
    var f := a.monthlyData;
    PeriodKeepsNets(history, period);
    ConsistentNetsAddUp(f);
  }

  /** A period's months are a suffix of the history, so their nets stay consistent. */
  lemma PeriodKeepsNets(history: seq<CashFlowData>, period: string)
    requires NetsConsistent(history)
    ensures NetsConsistent(FilterPeriod(history, period))
  {
    var f := FilterPeriod(history, period);
    var k := |history| - |f|;
    forall m | 0 <= m < |f| ensures f[m].netCashFlow == f[m].income - f[m].expenses {
      assert f[m] == history[k + m];
    }
  }

  lemma {:induction false} SliceNet(h: seq<CashFlowData>, k: nat, j: nat)
    requires WellFormedFlow(h) && k <= j <= |h|
    ensures SumNet(h[k..j]) == if j == k then 0.0 else h[j - 1].cumulativeBalance - Opening(h, k)
  {
    if j > k {
      SliceNet(h, k, j - 1);
      assert h[k..j][..j - 1 - k] == h[k..j - 1];
      assert h[k..j][j - 1 - k] == h[j - 1];
      assert MonthBalanced(h, j - 1);
    }
  }

  /** On a well-formed history, the net flow of any period is how much the running balance
      moved over it: the last balance minus the balance just before the period. */
  lemma PeriodNetIsBalanceChange(history: seq<CashFlowData>, period: string)
    requires history != [] && WellFormedFlow(history)
    ensures var a := AnalyzeCashflow(history, period).value;
      a.netCashFlow == history[|history| - 1].cumulativeBalance
                       - Opening(history, |history| - |a.monthlyData|)
  {
    var f := FilterPeriod(history, period);
    var k := |history| - |f|;
    forall m | 0 <= m < |history| ensures history[m].netCashFlow == history[m].income - history[m].expenses {
      assert MonthBalanced(history, m);
    }
    CashflowNetIsSumOfNets(history, period);
    SliceNet(history, k, |history|);
    assert history[k..|history|] == f;
  }

  /** The period never changes the trend: every period keeps at least the last two months. */
  lemma CashflowTrendIgnoresPeriod(history: seq<CashFlowData>, p: string, q: string)
    requires history != []
    ensures AnalyzeCashflow(history, p).value.trend == AnalyzeCashflow(history, q).value.trend
  {
    PeriodKeepsLastTwo(history, p);
    PeriodKeepsLastTwo(history, q);
  }

  /** Every period keeps the last two months, or all months when there are fewer. */
  lemma PeriodKeepsLastTwo(history: seq<CashFlowData>, period: string)
    ensures var f, n := FilterPeriod(history, period), |history|;
      (n < 2 ==> |f| == n)
      && (n >= 2 ==> |f| >= 2 && f[|f| - 1] == history[n - 1] && f[|f| - 2] == history[n - 2])
  {
    var f := FilterPeriod(history, period);
    var k := |history| - |f|;
    assert f == history[k..];
  }

  /** Against the service's own two-month classifier: when the two nets differ both say the
      same, but a tie reads as negative here and as stable there. */
  lemma TwoPointTrendVersusService(a: CashFlowData, b: CashFlowData)
    ensures a.netCashFlow != b.netCashFlow ==>
      TwoPointTrend([a, b]) == DS.ClassifyFlows([a.netCashFlow, b.netCashFlow])
    ensures a.netCashFlow == b.netCashFlow ==>
      TwoPointTrend([a, b]) == DS.Negative && DS.ClassifyFlows([a.netCashFlow, b.netCashFlow]) == DS.Stable
  {
  }

  // ---- per-category totals -------------------------------------------------------------

  /** The categories of the transactions of one type, in order of first appearance (the
      key order of the `category_totals` dictionary). */
  function CategoriesInOrder(ts: seq<Transaction>, ty: TransactionType): (r: seq<CategoryType>)
    ensures DS.Distinct(r)
  {
    if ts == [] then []
    else
      var prev := CategoriesInOrder(ts[..|ts| - 1], ty);
      var t := ts[|ts| - 1];
      if t.transactionType != ty || t.category in prev then prev else prev + [t.category]
  }

  /** The categories listed are exactly those that occur among the transactions of the type. */
  lemma {:induction false} CategoriesInOrderCovers(ts: seq<Transaction>, ty: TransactionType)
    ensures forall c :: c in CategoriesInOrder(ts, ty) <==> exists t :: t in ts && t.transactionType == ty && t.category == c
  {
    if ts != [] {
      var prefix := ts[..|ts| - 1];
      var last := ts[|ts| - 1];
      CategoriesInOrderCovers(prefix, ty);
      assert ts == prefix + [last];
      forall c | c in CategoriesInOrder(ts, ty)
        ensures exists t :: t in ts && t.transactionType == ty && t.category == c
      {
        if c in CategoriesInOrder(prefix, ty) {
          var t :| t in prefix && t.transactionType == ty && t.category == c;
          assert t in ts;
        } else {
          assert last in ts;
        }
      }
      forall c | exists t :: t in ts && t.transactionType == ty && t.category == c
        ensures c in CategoriesInOrder(ts, ty)
      {
        var t :| t in ts && t.transactionType == ty && t.category == c;
        if t != last {
          assert t in prefix;
        }
      }
    }
  }

  /** A category that does not occur in the type totals 0. */
  lemma {:induction false} CategoryTotalAbsent(ts: seq<Transaction>, ty: TransactionType, c: CategoryType)
    requires c !in CategoriesInOrder(ts, ty)
    ensures DS.CategoryTotal(ts, ty, c) == 0.0
  {
    if ts != [] {
      CategoryTotalAbsent(ts[..|ts| - 1], ty, c);
    }
  }

  /** What one more transaction does to the category list and the category totals. */
  lemma CategoriesExtend(prefix: seq<Transaction>, t: Transaction, ty: TransactionType)
    ensures var prev := CategoriesInOrder(prefix, ty);
      CategoriesInOrder(prefix + [t], ty)
        == if t.transactionType != ty || t.category in prev then prev else prev + [t.category]
    ensures forall c :: (DS.CategoryTotal(prefix + [t], ty, c)
      == DS.CategoryTotal(prefix, ty, c) + (if t.transactionType == ty && t.category == c then t.amount else 0.0))
  {
    assert (prefix + [t])[..|prefix|] == prefix;
  }

  /** The `category_totals` dictionary the expense and revenue endpoints build. */
  function TotalsMap(ts: seq<Transaction>, ty: TransactionType): map<CategoryType, real>
  {
    map c | c in CategoriesInOrder(ts, ty) :: DS.CategoryTotal(ts, ty, c)
  }

  /** The grouping loop's state after the transactions `ts`: the keys in first-appearance
      order, each with its category's total. */
  ghost predicate GroupedSoFar(ts: seq<Transaction>, ty: TransactionType,
                               order: seq<CategoryType>, totals: map<CategoryType, real>)
  {
    && order == CategoriesInOrder(ts, ty)
    && (forall c :: c in totals <==> c in order)
    && (forall c :: c in totals ==> totals[c] == DS.CategoryTotal(ts, ty, c))
  }

  /** One step of the grouping loop keeps its state right. */
  lemma GroupStep(prefix: seq<Transaction>, t: Transaction, ty: TransactionType,
                  order: seq<CategoryType>, totals: map<CategoryType, real>,
                  order': seq<CategoryType>, totals': map<CategoryType, real>)
    requires GroupedSoFar(prefix, ty, order, totals)
    requires order' == if t.transactionType == ty && t.category !in totals then order + [t.category] else order
    requires t.transactionType != ty ==> totals' == totals
    requires t.transactionType == ty ==>
      && totals'.Keys == totals.Keys + {t.category}
      && (forall c :: c in totals && c != t.category ==> totals'[c] == totals[c])
      && totals'[t.category] == (if t.category in totals then totals[t.category] else 0.0) + t.amount
    ensures GroupedSoFar(prefix + [t], ty, order', totals')
  {
    CategoriesExtend(prefix, t, ty);
    var s := prefix + [t];
    if t.transactionType == ty {
      if t.category !in totals {
        CategoryTotalAbsent(prefix, ty, t.category);
      }
      forall c | c in totals' ensures totals'[c] == DS.CategoryTotal(s, ty, c) {
        if c != t.category {
          assert c in totals;
        }
      }
    }
  }

  /** The grouping loop: for each transaction of the type, create its category's entry at 0
      on first sight, then add the amount. */
  method GroupByCategory(ts: seq<Transaction>, ty: TransactionType)
    returns (order: seq<CategoryType>, totals: map<CategoryType, real>)
    ensures order == CategoriesInOrder(ts, ty)
    ensures forall c :: c in totals <==> c in order
    ensures forall c :: c in totals ==> totals[c] == DS.CategoryTotal(ts, ty, c)
  {
    order := [];
    totals := map[];
    var i := 0;
    while i < |ts|
      invariant 0 <= i <= |ts|
      invariant GroupedSoFar(ts[..i], ty, order, totals)
    {
      var t := ts[i];
      ghost var order0, totals0 := order, totals;
      if t.transactionType == ty {
        var category := t.category;
        if category !in totals {
          totals := totals[category := 0.0];
          order := order + [category];
        }
        totals := totals[category := totals[category] + t.amount];
      }
      GroupStep(ts[..i], t, ty, order0, totals0, order, totals);
      assert ts[..i + 1] == ts[..i] + [t];
      i := i + 1;
    }
    assert ts[..i] == ts;
  }

  /** `sum(d.values())` over a dictionary whose keys are listed in `ks`. */
  function SumValues(ks: seq<CategoryType>, m: map<CategoryType, real>): real
    requires forall k :: k in ks ==> k in m
  {
    if ks == [] then 0.0 else SumValues(ks[..|ks| - 1], m) + m[ks[|ks| - 1]]
  }

  lemma {:induction false} SumValuesOfTotals(ks: seq<CategoryType>, m: map<CategoryType, real>,
                                             ts: seq<Transaction>, ty: TransactionType)
    requires forall k :: k in ks ==> k in m && m[k] == DS.CategoryTotal(ts, ty, k)
    ensures SumValues(ks, m) == DS.SumCategories(ts, ty, ks)
  {
    if ks != [] {
      SumValuesOfTotals(ks[..|ks| - 1], m, ts, ty);
    }
  }

  lemma {:induction false} SumCategoriesInOrder(ts: seq<Transaction>, ty: TransactionType)
    ensures DS.SumCategories(ts, ty, CategoriesInOrder(ts, ty)) == DS.TotalOfType(ts, ty)
  {
    if ts != [] {
      var prefix := ts[..|ts| - 1];
      var t := ts[|ts| - 1];
      var prev := CategoriesInOrder(prefix, ty);
      assert prefix + [t] == ts;
      SumCategoriesInOrder(prefix, ty);
      CategoriesExtend(prefix, t, ty);
      DS.SumCategoriesStep(prefix, t, ty, prev);
      if t.transactionType == ty && t.category !in prev {
        var cs := prev + [t.category];
        assert cs[..|cs| - 1] == prev;
        CategoryTotalAbsent(prefix, ty, t.category);
      }
    }
  }

  /** The category totals lose nothing and agree with the service: they add up to the type's
      total and form the same dictionary as the metrics' breakdown of that type. */
  lemma GroupedTotals(ts: seq<Transaction>, ty: TransactionType)
    ensures SumValues(CategoriesInOrder(ts, ty), TotalsMap(ts, ty)) == DS.TotalOfType(ts, ty)
    ensures TotalsMap(ts, ty) == DS.Breakdown(ts, ty)
  {
    var order := CategoriesInOrder(ts, ty);
    SumValuesOfTotals(order, TotalsMap(ts, ty), ts, ty);
    SumCategoriesInOrder(ts, ty);
    CategoriesInOrderCovers(ts, ty);
    assert TotalsMap(ts, ty).Keys == DS.Breakdown(ts, ty).Keys;
  }

  // ---- percentages ---------------------------------------------------------------------

  /** `category_percentages`: each total as a percentage of the overall total, or 0 when the
      overall total is not positive. */
  function Percentages(totals: map<CategoryType, real>, total: real): (p: map<CategoryType, real>)
    ensures p.Keys == totals.Keys
  {
    map c | c in totals :: if total > 0.0 then totals[c] / total * 100.0 else 0.0
  }

  lemma {:induction false} SumScaled(ks: seq<CategoryType>, totals: map<CategoryType, real>, total: real)
    requires total > 0.0 && forall k :: k in ks ==> k in totals
    ensures SumValues(ks, Percentages(totals, total)) == SumValues(ks, totals) / total * 100.0
  {
    if ks != [] {
      var prefix := ks[..|ks| - 1];
      var k := ks[|ks| - 1];
      SumScaled(prefix, totals, total);
      var a := SumValues(prefix, totals);
      var b := totals[k];
      assert (a + b) / total == a / total + b / total;
    }
  }

  lemma {:induction false} ValueAtMostSum(ks: seq<CategoryType>, m: map<CategoryType, real>, k: CategoryType)
    requires forall x :: x in ks ==> x in m && m[x] >= 0.0
    requires k in ks
    ensures 0.0 <= m[k] <= SumValues(ks, m)
  {
    var prefix := ks[..|ks| - 1];
    if k != ks[|ks| - 1] {
      assert k in prefix;
      ValueAtMostSum(prefix, m, k);
    } else if prefix != [] {
      ValueAtMostSum(prefix, m, prefix[0]);
    }
  }

  /** When the categories' totals are their sum and that sum is positive, the percentages
      add up to 100 and each lies between 0 and 100; otherwise every percentage is 0. */
  lemma PercentagesMeaning(ks: seq<CategoryType>, totals: map<CategoryType, real>)
    requires forall k :: k in ks <==> k in totals
    requires forall k :: k in totals ==> totals[k] >= 0.0
    ensures var total := SumValues(ks, totals);
      && (total > 0.0 ==> SumValues(ks, Percentages(totals, total)) == 100.0)
      && (forall k :: k in totals ==> 0.0 <= Percentages(totals, total)[k] <= 100.0)
      && (total <= 0.0 ==> forall k :: k in totals ==> Percentages(totals, total)[k] == 0.0)
  {
    var total := SumValues(ks, totals);
    if total > 0.0 {
      SumScaled(ks, totals, total);
      forall k | k in totals ensures 0.0 <= Percentages(totals, total)[k] <= 100.0 {
        ValueAtMostSum(ks, totals, k);
        assert totals[k] / total <= 1.0;
      }
    }
  }

  // ---- ranking -------------------------------------------------------------------------

  /** The dictionary's items in key order. */
  function Items(ks: seq<CategoryType>, m: map<CategoryType, real>): (r: seq<(CategoryType, real)>)
    requires forall k :: k in ks ==> k in m
    ensures |r| == |ks| && forall i :: 0 <= i < |ks| ==> r[i] == (ks[i], m[ks[i]])
  {
    if ks == [] then [] else Items(ks[..|ks| - 1], m) + [(ks[|ks| - 1], m[ks[|ks| - 1]])]
  }

  predicate NonIncreasing(s: seq<(CategoryType, real)>)
  {
    forall i, j :: 0 <= i < j < |s| ==> s[i].1 >= s[j].1
  }

  /** Places an item before the first item whose amount it equals or exceeds. */
  function InsertByAmount(x: (CategoryType, real), s: seq<(CategoryType, real)>): (r: seq<(CategoryType, real)>)
    ensures multiset(r) == multiset(s) + multiset{x}
    ensures |r| == |s| + 1
  {
    if s == [] then [x]
    else if x.1 >= s[0].1 then [x] + s
    else
      assert s == [s[0]] + s[1..];
      [s[0]] + InsertByAmount(x, s[1..])
  }

  /** `sorted(items, key=amount, reverse=True)`: an insertion sort that puts each item before
      the later items of equal amount, which keeps ties in their original order. */
  function SortByAmount(s: seq<(CategoryType, real)>): (r: seq<(CategoryType, real)>)
    ensures multiset(r) == multiset(s)
    ensures |r| == |s|
  {
    if s == [] then []
    else
      assert s == [s[0]] + s[1..];
      InsertByAmount(s[0], SortByAmount(s[1..]))
  }

  lemma {:induction false} InsertByAmountSorted(x: (CategoryType, real), s: seq<(CategoryType, real)>)
    requires NonIncreasing(s)
    ensures NonIncreasing(InsertByAmount(x, s))
    ensures s != [] ==> InsertByAmount(x, s)[0] == (if x.1 >= s[0].1 then x else s[0])
  {
    if s != [] && x.1 < s[0].1 {
      var tail := s[1..];
      var rest := InsertByAmount(x, tail);
      InsertByAmountSorted(x, tail);
      InsertByAmountElements(x, tail);
      assert InsertByAmount(x, s) == [s[0]] + rest;
      forall y | y in rest ensures y.1 <= s[0].1 {
        if y != x {
          var i :| 0 <= i < |tail| && tail[i] == y;
          assert s[i + 1] == y;
        }
      }
      NonIncreasingCons(s[0], rest);
    }
  }

  lemma NonIncreasingCons(h: (CategoryType, real), t: seq<(CategoryType, real)>)
    requires NonIncreasing(t)
    requires forall y :: y in t ==> y.1 <= h.1
    ensures NonIncreasing([h] + t)
  {
    var r := [h] + t;
    forall i, j | 0 <= i < j < |r| ensures r[i].1 >= r[j].1 {
      assert r[j] == t[j - 1];
      if i > 0 {
        assert r[i] == t[i - 1];
      }
    }
  }

  lemma InsertByAmountElements(x: (CategoryType, real), s: seq<(CategoryType, real)>)
    ensures forall y :: y in InsertByAmount(x, s) <==> y == x || y in s
  {
    var r := InsertByAmount(x, s);
    assert forall y :: y in r <==> y in multiset(r);
  }

  lemma {:induction false} SortByAmountSorted(s: seq<(CategoryType, real)>)
    ensures NonIncreasing(SortByAmount(s))
  {
    if s != [] {
      SortByAmountSorted(s[1..]);
      InsertByAmountSorted(s[0], SortByAmount(s[1..]));
    }
  }

  const TopCount: nat := 3

  /** `top_categories`: the first three items once ranked. */
  function TopCategories(items: seq<(CategoryType, real)>): (r: seq<(CategoryType, real)>)
    ensures |r| == if |items| < TopCount then |items| else TopCount
    ensures forall e :: e in r ==> e in items
  {
    var ranked := SortByAmount(items);
    var top := Take(ranked, TopCount);
    assert forall e :: e in top ==> e in ranked;
    assert forall e :: e in ranked ==> e in multiset(items);
    top
  }

  /** The ranking keeps the largest: the top items run from largest to smallest, and every
      item not among them is at most each of them, so the first is a maximum. */
  lemma TopCategoriesAreLargest(items: seq<(CategoryType, real)>)
    ensures NonIncreasing(TopCategories(items))
    ensures forall e, x :: e in TopCategories(items) && x in items && x !in TopCategories(items) ==> x.1 <= e.1
    ensures items != [] ==> forall x :: x in items ==> x.1 <= TopCategories(items)[0].1
  {
    var ranked := SortByAmount(items);
    var top := TopCategories(items);
    SortByAmountSorted(items);
    SortKeepsElements(items);
    assert top == ranked[..|top|];
    RankedPrefixLargest(ranked, |top|);
  }

  lemma SortKeepsElements(s: seq<(CategoryType, real)>)
    ensures forall x :: x in SortByAmount(s) <==> x in s
  {
    var r := SortByAmount(s);
    assert forall x :: x in r <==> x in multiset(r);
  }

  /** In a list ranked from largest to smallest, the first n items are ranked too, and no
      later item exceeds any of them. */
  lemma RankedPrefixLargest(ranked: seq<(CategoryType, real)>, n: nat)
    requires NonIncreasing(ranked) && n <= |ranked|
    ensures NonIncreasing(ranked[..n])
    ensures forall e, x :: e in ranked[..n] && x in ranked && x !in ranked[..n] ==> x.1 <= e.1
    ensures n > 0 ==> forall x :: x in ranked ==> x.1 <= ranked[..n][0].1
  {
    var top := ranked[..n];
    forall e, x | e in top && x in ranked && x !in top ensures x.1 <= e.1 {
      var i :| 0 <= i < n && top[i] == e;
      var j :| 0 <= j < |ranked| && ranked[j] == x;
      if j < n {
        assert false;
      }
    }
    if n > 0 {
      forall x | x in ranked ensures x.1 <= top[0].1 {
        var j :| 0 <= j < |ranked| && ranked[j] == x;
      }
    }
  }

  /** The ranking of a dictionary's items: at most three entries, each a key with its own
      value, largest first, and every key left out has a value at most each ranked one. */
  lemma RankingMeaning(order: seq<CategoryType>, totals: map<CategoryType, real>)
    requires forall k :: k in order <==> k in totals
    ensures var top := TopCategories(Items(order, totals));
      && |top| == (if |order| < 3 then |order| else 3)
      && (forall e :: e in top ==> e.0 in totals && e.1 == totals[e.0])
      && NonIncreasing(top)
      && (forall e, c :: e in top && c in totals && (forall f :: f in top ==> f.0 != c) ==> totals[c] <= e.1)
  {
    var items := Items(order, totals);
    var top := TopCategories(items);
    TopCategoriesAreLargest(items);
    forall e | e in items ensures e.0 in totals && e.1 == totals[e.0] {
      var i :| 0 <= i < |items| && items[i] == e;
    }
    forall e, c | e in top && c in totals && (forall f :: f in top ==> f.0 != c) ensures totals[c] <= e.1 {
      var k :| 0 <= k < |order| && order[k] == c;
      var x := items[k];
      assert x.0 == c && x in items;
    }
  }

  // ---- expenses ------------------------------------------------------------------------

  /** One entry of the expense ranking. */
  datatype RankedExpense = RankedExpense(category: CategoryType, amount: real, percentage: real)

  /** The expense endpoint's figures (the insight sentences are not modelled). */
  datatype ExpenseAnalysis = ExpenseAnalysis(
    period: string,
    totalExpenses: real,
    categoryOrder: seq<CategoryType>,
    categoryBreakdown: map<CategoryType, real>,
    categoryPercentages: map<CategoryType, real>,
    topCategories: seq<RankedExpense>)

  function WithPercentages(top: seq<(CategoryType, real)>, pct: map<CategoryType, real>): (r: seq<RankedExpense>)
    requires forall e :: e in top ==> e.0 in pct
    ensures |r| == |top|
    ensures forall i :: 0 <= i < |top| ==> r[i] == RankedExpense(top[i].0, top[i].1, pct[top[i].0])
  {
    if top == [] then []
    else WithPercentages(top[..|top| - 1], pct) + [RankedExpense(top[|top| - 1].0, top[|top| - 1].1, pct[top[|top| - 1].0])]
  }

  /** The expense analysis of a list of transactions. */
  function ExpenseAnalysisOf(period: string, ts: seq<Transaction>): ExpenseAnalysis
  {
    var order := CategoriesInOrder(ts, Expense);
    var totals := TotalsMap(ts, Expense);
    var total := SumValues(order, totals);
    var pct := Percentages(totals, total);
    var top := TopCategories(Items(order, totals));
    ExpenseAnalysis(period, total, order, totals, pct, WithPercentages(top, pct))
  }

  /** `analyze_expenses` over the service's transactions. */
  method AnalyzeExpenses(period: string, ts: seq<Transaction>) returns (r: Result<ExpenseAnalysis, HttpError>)
    ensures r.Failure? <==> ts == []
    ensures r.Failure? ==> r.error == Rewrapped(HttpError(404, NoTransactionData))
    ensures r.Success? ==> r.value == ExpenseAnalysisOf(period, ts)
  {
    if ts == [] {
      return Failure(Rewrapped(HttpError(404, NoTransactionData)));
    }
    var order, categoryTotals := GroupByCategory(ts, Expense);
    assert categoryTotals == TotalsMap(ts, Expense);
    var totalExpenses := SumValues(order, categoryTotals);
    var categoryPercentages := Percentages(categoryTotals, totalExpenses);
    var topCategories := TopCategories(Items(order, categoryTotals));
    r := Success(ExpenseAnalysis(period, totalExpenses, order, categoryTotals, categoryPercentages,
                                 WithPercentages(topCategories, categoryPercentages)));
  }

  /** The expense analysis counts expense transactions only: its total is the expense total
      and its breakdown the metrics' expense breakdown; the percentages add up to 100 when
      there are expenses and each lies between 0 and 100. */
  lemma ExpenseTotalsMeaning(period: string, ts: seq<Transaction>)
    ensures var a := ExpenseAnalysisOf(period, ts);
      && a.totalExpenses == DS.TotalOfType(ts, Expense)
      && a.categoryBreakdown == DS.Breakdown(ts, Expense)
      && (a.totalExpenses > 0.0 ==> SumValues(a.categoryOrder, a.categoryPercentages) == 100.0)
      && (forall c :: c in a.categoryPercentages ==> 0.0 <= a.categoryPercentages[c] <= 100.0)
  {
    GroupedTotals(ts, Expense);
    DS.BreakdownKeys(ts, Expense);
    PercentagesMeaning(CategoriesInOrder(ts, Expense), TotalsMap(ts, Expense));
  }

  /** The ranking with each entry's percentage attached: at most three entries, each with its
      own total and percentage, largest first. */
  lemma RankedEntries(order: seq<CategoryType>, totals: map<CategoryType, real>, pct: map<CategoryType, real>)
    requires forall k :: k in order <==> k in totals
    requires pct.Keys == totals.Keys
    ensures var r := WithPercentages(TopCategories(Items(order, totals)), pct);
      && |r| == (if |order| < 3 then |order| else 3)
      && (forall i :: 0 <= i < |r| ==>
            r[i].category in totals && r[i].amount == totals[r[i].category] && r[i].percentage == pct[r[i].category])
      && (forall i, j :: 0 <= i < j < |r| ==> r[i].amount >= r[j].amount)
  {
    RankingMeaning(order, totals);
    EntriesWithPercentages(TopCategories(Items(order, totals)), totals, pct);
  }

  /** The ranked entries with their percentages attached, for any ranking of the totals. */
  lemma EntriesWithPercentages(top: seq<(CategoryType, real)>, totals: map<CategoryType, real>,
                               pct: map<CategoryType, real>)
    requires pct.Keys == totals.Keys
    requires forall e :: e in top ==> e.0 in totals && e.1 == totals[e.0]
    ensures var r := WithPercentages(top, pct);
      && (forall i :: 0 <= i < |r| ==>
            r[i].category in totals && r[i].amount == totals[r[i].category] && r[i].percentage == pct[r[i].category])
      && (NonIncreasing(top) ==> forall i, j :: 0 <= i < j < |r| ==> r[i].amount >= r[j].amount)
  {
    var r := WithPercentages(top, pct);
    forall i | 0 <= i < |r| ensures r[i].category in totals && r[i].amount == totals[r[i].category] {
      assert top[i] in top;
    }
  }

  /** Attaching percentages keeps every omitted category no larger than a ranked one. */
  lemma OmittedWithPercentages(top: seq<(CategoryType, real)>, totals: map<CategoryType, real>,
                               pct: map<CategoryType, real>)
    requires pct.Keys == totals.Keys
    requires forall e :: e in top ==> e.0 in totals && e.1 == totals[e.0]
    requires forall e, c :: e in top && c in totals && (forall f :: f in top ==> f.0 != c) ==> totals[c] <= e.1
    ensures var r := WithPercentages(top, pct);
      forall i, c :: 0 <= i < |r| && c in totals && (forall j :: 0 <= j < |r| ==> r[j].category != c)
        ==> totals[c] <= r[i].amount
  {
    var r := WithPercentages(top, pct);
    forall i, c | 0 <= i < |r| && c in totals && (forall j :: 0 <= j < |r| ==> r[j].category != c)
      ensures totals[c] <= r[i].amount
    {
      forall f | f in top ensures f.0 != c {
        var j :| 0 <= j < |top| && top[j] == f;
        assert r[j].category == f.0;
      }
      assert top[i] in top;
    }
  }

  /** No category left out of the ranking has a larger total than a ranked one. */
  lemma RankedOmitted(order: seq<CategoryType>, totals: map<CategoryType, real>, pct: map<CategoryType, real>)
    requires forall k :: k in order <==> k in totals
    requires pct.Keys == totals.Keys
    ensures var r := WithPercentages(TopCategories(Items(order, totals)), pct);
      forall i, c :: 0 <= i < |r| && c in totals && (forall j :: 0 <= j < |r| ==> r[j].category != c)
        ==> totals[c] <= r[i].amount
  {
    RankingMeaning(order, totals);
    OmittedWithPercentages(TopCategories(Items(order, totals)), totals, pct);
  }

  /** At most three expense categories are ranked, largest first, each with its own total
      and percentage, and no category left out spent more than one that is ranked. */
  lemma ExpenseRankingMeaning(period: string, ts: seq<Transaction>)
    ensures var a := ExpenseAnalysisOf(period, ts);
      && |a.topCategories| == (if |a.categoryOrder| < 3 then |a.categoryOrder| else 3)
      && (forall i :: 0 <= i < |a.topCategories| ==>
            a.topCategories[i].category in a.categoryBreakdown
            && a.topCategories[i].amount == a.categoryBreakdown[a.topCategories[i].category]
            && a.topCategories[i].percentage == a.categoryPercentages[a.topCategories[i].category])
      && (forall i, j :: 0 <= i < j < |a.topCategories| ==> a.topCategories[i].amount >= a.topCategories[j].amount)
      && (forall i, c :: 0 <= i < |a.topCategories| && c in a.categoryBreakdown
            && (forall j :: 0 <= j < |a.topCategories| ==> a.topCategories[j].category != c)
            ==> a.categoryBreakdown[c] <= a.topCategories[i].amount)
  {
    var order := CategoriesInOrder(ts, Expense);
    var totals := TotalsMap(ts, Expense);
    var pct := Percentages(totals, SumValues(order, totals));
    RankedEntries(order, totals, pct);
    RankedOmitted(order, totals, pct);
  }

  // ---- revenue -------------------------------------------------------------------------

  /** The revenue endpoint assumes the data span twelve months. */
  const MonthsAssumed: real := 12.0

  /** The revenue endpoint's figures (the insight sentences are not modelled). */
  datatype RevenueAnalysis = RevenueAnalysis(
    period: string,
    totalRevenue: real,
    averageMonthlyRevenue: real,
    categoryOrder: seq<CategoryType>,
    categoryBreakdown: map<CategoryType, real>,
    topCategories: seq<(CategoryType, real)>)

  /** The revenue analysis of a list of transactions. */
  function RevenueAnalysisOf(period: string, ts: seq<Transaction>): RevenueAnalysis
  {
    var order := CategoriesInOrder(ts, Income);
    var totals := TotalsMap(ts, Income);
    var total := SumValues(order, totals);
    RevenueAnalysis(period, total, total / MonthsAssumed, order, totals, TopCategories(Items(order, totals)))
  }

  /** `analyze_revenue` over the service's transactions. */
  method AnalyzeRevenue(period: string, ts: seq<Transaction>) returns (r: Result<RevenueAnalysis, HttpError>)
    ensures r.Failure? <==> ts == []
    ensures r.Failure? ==> r.error == Rewrapped(HttpError(404, NoTransactionData))
    ensures r.Success? ==> r.value == RevenueAnalysisOf(period, ts)
  {
    if ts == [] {
      return Failure(Rewrapped(HttpError(404, NoTransactionData)));
    }
    var order, categoryTotals := GroupByCategory(ts, Income);
    assert categoryTotals == TotalsMap(ts, Income);
    var totalRevenue := SumValues(order, categoryTotals);
    var avgMonthlyRevenue := totalRevenue / MonthsAssumed;
    var topCategories := TopCategories(Items(order, categoryTotals));
    r := Success(RevenueAnalysis(period, totalRevenue, avgMonthlyRevenue, order, categoryTotals, topCategories));
  }

  /** The revenue analysis counts income transactions only: its total is the income total, the
      monthly average is a twelfth of it whatever the data's real span, its breakdown is the
      metrics' revenue breakdown, and the ranking keeps the three largest categories. */
  lemma RevenueAnalysisMeaning(period: string, ts: seq<Transaction>)
    ensures var a := RevenueAnalysisOf(period, ts);
      && a.totalRevenue == DS.TotalOfType(ts, Income)
      && a.averageMonthlyRevenue * 12.0 == a.totalRevenue
      && a.categoryBreakdown == DS.Breakdown(ts, Income)
      && |a.topCategories| == (if |a.categoryOrder| < 3 then |a.categoryOrder| else 3)
      && (forall e :: e in a.topCategories ==> e.0 in a.categoryBreakdown && e.1 == a.categoryBreakdown[e.0])
      && NonIncreasing(a.topCategories)
      && (forall e, c :: e in a.topCategories && c in a.categoryBreakdown
            && (forall f :: f in a.topCategories ==> f.0 != c)
            ==> a.categoryBreakdown[c] <= e.1)
  {
    var order := CategoriesInOrder(ts, Income);
    var totals := TotalsMap(ts, Income);
    GroupedTotals(ts, Income);
    RankingMeaning(order, totals);
  }

  // ---- profitability -------------------------------------------------------------------

  /** The profitability endpoint's figures (the insight sentences are not modelled). */
  datatype ProfitabilityAnalysis = ProfitabilityAnalysis(
    totalRevenue: real,
    totalExpenses: real,
    netProfit: real,
    profitMargin: real,
    operatingMargin: real,
    expenseEfficiency: real,
    cashFlowTrend: string,
    revenueGrowth: real)

  /** `analyze_profitability`: fails only when no metrics were computed (a metrics record is
      always truthy); revenue growth is a fixed 0; expense efficiency is the share of revenue
      left after expenses, in percent, or 0 without revenue. */
  function AnalyzeProfitability(metrics: Option<FinancialMetrics>): (r: Result<ProfitabilityAnalysis, HttpError>)
    ensures r.Failure? <==> metrics.None?
    ensures r.Failure? ==> r.error == Rewrapped(HttpError(404, NoMetrics))
    ensures r.Success? ==> var m := metrics.value;
      && r.value.totalRevenue == m.totalRevenue && r.value.totalExpenses == m.totalExpenses
      && r.value.netProfit == m.netProfit && r.value.profitMargin == m.profitMargin
      && r.value.operatingMargin == m.operatingMargin && r.value.cashFlowTrend == m.cashFlowTrend
      && r.value.revenueGrowth == 0.0
      && (m.totalRevenue > 0.0 ==> r.value.expenseEfficiency * m.totalRevenue == 100.0 * (m.totalRevenue - m.totalExpenses))
      && (m.totalRevenue <= 0.0 ==> r.value.expenseEfficiency == 0.0)
  {
    if metrics.None? then Failure(Rewrapped(HttpError(404, NoMetrics)))
    else
      var m := metrics.value;
      var efficiency := DS.Margin(m.totalRevenue, m.totalExpenses);
      assert m.totalRevenue > 0.0 ==> efficiency * m.totalRevenue == 100.0 * (m.totalRevenue - m.totalExpenses) by {
        if m.totalRevenue > 0.0 {
          var q := (m.totalRevenue - m.totalExpenses) / m.totalRevenue;
          assert q * m.totalRevenue == m.totalRevenue - m.totalExpenses;
        }
      }
      Success(ProfitabilityAnalysis(m.totalRevenue, m.totalExpenses, m.netProfit, m.profitMargin,
                                    m.operatingMargin, efficiency, m.cashFlowTrend, 0.0))
  }

  /** On metrics the service computed, expense efficiency is the profit margin under another
      name, and so never exceeds 100. */
  lemma ExpenseEfficiencyIsProfitMargin(ts: seq<Transaction>, trend: string)
    ensures var a := AnalyzeProfitability(Some(DS.MetricsOf(ts, trend))).value;
      a.expenseEfficiency == a.profitMargin && a.expenseEfficiency <= 100.0
  {
    DS.MetricsMeaning(ts, trend);
  }
}
