/** The transaction store: spreadsheet rows mapped to transactions, the keyword
    classifiers, the yearly metrics, the recent-trend classifier and the monthly cash-flow
    history. */
module DataService {
  import opened Wrappers
  import opened Text
  import opened FinancialModels

  // ---- spreadsheet rows ----------------------------------------------------------------

  /** One spreadsheet cell as pandas hands it over: text, a number (with the text `str()`
      prints for it), or an empty cell, which pandas reads as NaN. */
  datatype Cell = TextCell(text: string) | NumberCell(value: real, shown: string) | EmptyCell

  /** One spreadsheet row: column name to cell. */
  type Row = map<string, Cell>

  /** `str(cell)`: an empty cell prints as "nan". */
  function CellText(c: Cell): string
  {
    match c
    case TextCell(s) => s
    case NumberCell(_, shown) => shown
    case EmptyCell => "nan"
  }

  /** `float(cell)`, or None when it raises or gives NaN (an empty cell): a NaN amount fails
      the record's `amount > 0` check just as a raise fails the row. */
  function CellAmount(c: Cell): Option<real>
  {
    match c
    case TextCell(s) => ParseDecimal(s)
    case NumberCell(v, _) => Some(v)
    case EmptyCell => None
  }

  const AmountColumns: seq<string> := ["amount", "monto", "valor", "importe"]
  const DateColumns: seq<string> := ["date", "fecha", "fecha_transaccion"]
  const DescriptionColumns: seq<string> := ["description", "descripcion", "concepto", "detalle"]
  const CategoryColumns: seq<string> := ["category", "categoria", "tipo"]

  /** The first of `names`, in list order, that is a column of the row. */
  function FirstPresent(row: Row, names: seq<string>): (r: Option<string>)
    ensures r.Some? ==> r.value in row && r.value in names
  {
    if names == [] then None
    else if names[0] in row then Some(names[0])
    else FirstPresent(row, names[1..])
  }

  /** The column found is a column of the row and the earliest candidate that is; there is
      none exactly when no candidate is a column. */
  lemma {:induction false} FirstPresentIsFirst(row: Row, names: seq<string>)
    ensures FirstPresent(row, names).None? <==> forall i :: 0 <= i < |names| ==> names[i] !in row
    ensures FirstPresent(row, names).Some? ==>
      exists i :: 0 <= i < |names| && names[i] == FirstPresent(row, names).value && names[i] in row
        && forall j :: 0 <= j < i ==> names[j] !in row
  {
    if names != [] && names[0] !in row {
      FirstPresentIsFirst(row, names[1..]);
      if FirstPresent(row, names).Some? {
        var i :| 0 <= i < |names[1..]| && names[1..][i] == FirstPresent(row, names).value && names[1..][i] in row
          && forall j :: 0 <= j < i ==> names[1..][j] !in row;
        assert names[i + 1] == names[1..][i];
        assert forall j :: 0 < j < i + 1 ==> names[j] == names[1..][j - 1];
      } else {
        assert forall i :: 0 < i < |names| ==> names[i] == names[1..][i - 1];
      }
    }
  }

  /** `_find_column`: the candidates are tried in order and the first column present wins. */
  method FindColumn(row: Row, names: seq<string>) returns (col: Option<string>)
    ensures col == FirstPresent(row, names)
  {
    var i := 0;
    while i < |names|
      invariant 0 <= i <= |names|
      invariant FirstPresent(row, names) == FirstPresent(row, names[i..])
    {
      if names[i] in row {
        return Some(names[i]);
      }
      assert names[i..][1..] == names[i + 1..];
      i := i + 1;
    }
    return None;
  }

  // ---- keyword classifiers -------------------------------------------------------------

  /** The keyword groups of `_map_category`, in the order they are tried. */
  const CategoryKeywordGroups: seq<(CategoryType, seq<string>)> := [
    (Sales, ["venta", "ventas", "sales", "ingreso"]),
    (Personnel, ["salario", "empleado", "personal", "nómina"]),
    (Marketing, ["marketing", "publicidad", "promocion"]),
    (Equipment, ["equipo", "maquinaria", "computadora"]),
    (Utilities, ["luz", "agua", "telefono", "internet"])
  ]

  function FirstMatchingGroup(text: string, i: nat): CategoryType
    requires i <= |CategoryKeywordGroups|
    decreases |CategoryKeywordGroups| - i
  {
    if i == |CategoryKeywordGroups| then Other
    else if ContainsAny(text, CategoryKeywordGroups[i].1) then CategoryKeywordGroups[i].0
    else FirstMatchingGroup(text, i + 1)
  }

  /** `_map_category`: only the lower-cased description decides; the category text is
      lower-cased by the source but never consulted. */
  function MapCategory(category: string, description: string): CategoryType
  {
    FirstMatchingGroup(Lower(description), 0)
  }

  /** The category is that of the first keyword group the lower-cased description mentions,
      and Other exactly when it mentions none; operating expenses are never chosen. */
  lemma MapCategoryFirstMatch(category: string, description: string)
    ensures var text, c := Lower(description), MapCategory(category, description);
      && c != OperatingExpenses
      && (c == Other <==> forall i :: 0 <= i < |CategoryKeywordGroups| ==> !ContainsAny(text, CategoryKeywordGroups[i].1))
      && (c != Other ==>
            exists i :: 0 <= i < |CategoryKeywordGroups| && CategoryKeywordGroups[i].0 == c
              && ContainsAny(text, CategoryKeywordGroups[i].1)
              && forall j :: 0 <= j < i ==> !ContainsAny(text, CategoryKeywordGroups[j].1))
  {
    FirstMatchingGroupIsFirst(Lower(description), 0);
  }

  lemma {:induction false} FirstMatchingGroupIsFirst(text: string, i: nat)
    requires i <= |CategoryKeywordGroups|
    requires forall j :: 0 <= j < i ==> !ContainsAny(text, CategoryKeywordGroups[j].1)
    ensures var c := FirstMatchingGroup(text, i);
      && c != OperatingExpenses
      && (c == Other <==> forall j :: 0 <= j < |CategoryKeywordGroups| ==> !ContainsAny(text, CategoryKeywordGroups[j].1))
      && (c != Other ==>
            exists k :: i <= k < |CategoryKeywordGroups| && CategoryKeywordGroups[k].0 == c
              && ContainsAny(text, CategoryKeywordGroups[k].1)
              && forall j :: 0 <= j < k ==> !ContainsAny(text, CategoryKeywordGroups[j].1))
    decreases |CategoryKeywordGroups| - i
  {
    if i < |CategoryKeywordGroups| && !ContainsAny(text, CategoryKeywordGroups[i].1) {
      FirstMatchingGroupIsFirst(text, i + 1);
    }
  }

  const BusinessKeywords: seq<string> := ["oficina", "equipo", "software", "servicio", "profesional"]
  const MinimumBusinessAmount: real := 100.0

  /** `_is_business_relevant`. */
  predicate IsBusinessRelevant(t: Transaction)
  {
    if t.amount < MinimumBusinessAmount then false
    else if t.transactionType == Investment then true
    else ContainsAny(Lower(t.description), BusinessKeywords)
  }

  /** The personal transactions kept: those relevant to the business, in their order. */
  function RelevantOnly(ts: seq<Transaction>): (r: seq<Transaction>)
    ensures |r| <= |ts|
    ensures forall t :: t in r <==> t in ts && IsBusinessRelevant(t)
  {
    if ts == [] then []
    else RelevantOnly(ts[..|ts| - 1]) + (if IsBusinessRelevant(ts[|ts| - 1]) then [ts[|ts| - 1]] else [])
  }

  /** The filter works one transaction at a time: a list joined from two parts keeps what
      each part keeps, in the same order (so repeats are kept as often as they occur). */
  lemma {:induction false} RelevantOnlyAppend(a: seq<Transaction>, b: seq<Transaction>)
    ensures RelevantOnly(a + b) == RelevantOnly(a) + RelevantOnly(b)
    decreases |b|
  {
    if b == [] {
      assert a + b == a;
    } else {
      var n := |b| - 1;
      var kept := if IsBusinessRelevant(b[n]) then [b[n]] else [];
      assert (a + b)[..|a + b| - 1] == a + b[..n];
      assert (a + b)[|a + b| - 1] == b[n];
      assert RelevantOnly(a + b) == RelevantOnly(a + b[..n]) + kept;
      assert RelevantOnly(b) == RelevantOnly(b[..n]) + kept;
      RelevantOnlyAppend(a, b[..n]);
    }
  }

  /** A single transaction is kept exactly when it is relevant. */
  lemma RelevantOnlySingle(t: Transaction)
    ensures RelevantOnly([t]) == if IsBusinessRelevant(t) then [t] else []
  {
    assert [t][..0] == [];
  }

  /** Every transaction kept is for at least 100 and is an investment or mentions a business
      keyword; a large enough investment is always kept. */
  lemma RelevantOnlyKeeps(ts: seq<Transaction>)
    ensures forall t :: t in RelevantOnly(ts) ==>
      t.amount >= 100.0 && (t.transactionType == Investment || ContainsAny(Lower(t.description), BusinessKeywords))
    ensures forall t :: t in ts && t.transactionType == Investment && t.amount >= 100.0 ==> t in RelevantOnly(ts)
  {
  }

  /** `_map_excel_row_to_transaction`, given the row's parsed date: None when the amount, date
      or description column is missing, when the amount is not a number, when it is 0 (it
      becomes an expense of 0, which the record rejects), and when the category column is
      present but its cell is not text (`.lower()` on a number or NaN raises); otherwise a
      positive amount is income and a negative one an expense of its absolute value. */
  function MapExcelRow(row: Row, date: Date): (r: Option<Transaction>)
    ensures var amountCol, dateCol, descCol, categoryCol :=
        FirstPresent(row, AmountColumns), FirstPresent(row, DateColumns), FirstPresent(row, DescriptionColumns),
        FirstPresent(row, CategoryColumns);
      r.None? <==>
        (amountCol.None? || dateCol.None? || descCol.None?
         || CellAmount(row[amountCol.value]).None? || CellAmount(row[amountCol.value]).value == 0.0
         || (categoryCol.Some? && !row[categoryCol.value].TextCell?))
    ensures r.Some? ==>
      var amount := CellAmount(row[FirstPresent(row, AmountColumns).value]).value;
      var description := CellText(row[FirstPresent(row, DescriptionColumns).value]);
      && (r.value.transactionType == Income <==> amount > 0.0)
      && r.value.transactionType != Investment
      && r.value.amount == (if amount > 0.0 then amount else -amount)
      && r.value.description == description
      && r.value.category == MapCategory("", Lower(description))
      && r.value.date == date
  {
    var amountCol := FirstPresent(row, AmountColumns);
    var dateCol := FirstPresent(row, DateColumns);
    var descCol := FirstPresent(row, DescriptionColumns);
    var categoryCol := FirstPresent(row, CategoryColumns);
    if amountCol.None? || dateCol.None? || descCol.None? then None
    else
      match CellAmount(row[amountCol.value])
      case None => None
      case Some(amount) =>
        var description := Lower(CellText(row[descCol.value]));
        var transactionType := if amount > 0.0 then Income else Expense;
        var absolute := if amount > 0.0 then amount else -amount;
        if categoryCol.Some? && !row[categoryCol.value].TextCell? then None
        else
          var categoryText := if categoryCol.Some? then row[categoryCol.value].text else "";
          NewTransaction(date, absolute, CellText(row[descCol.value]), MapCategory(categoryText, description),
                         transactionType)
  }

  /** The transactions of a sheet's rows, in row order, rows that do not map skipped. */
  function MappedRows(rows: seq<(Row, Date)>): (r: seq<Transaction>)
    ensures |r| <= |rows|
  {
    if rows == [] then []
    else
      var last := MapExcelRow(rows[|rows| - 1].0, rows[|rows| - 1].1);
      MappedRows(rows[..|rows| - 1]) + (if last.Some? then [last.value] else [])
  }

  /** `_load_excel_data` once the sheet is read (reading the file is not modelled): the mapped
      transactions, or None when no row maps. */
  method LoadSheet(rows: seq<(Row, Date)>) returns (loaded: Option<seq<Transaction>>)
    ensures loaded.Some? <==> MappedRows(rows) != []
    ensures loaded.Some? ==> loaded.value == MappedRows(rows)
    ensures rows == [] ==> loaded.None?
  {
    if |rows| == 0 {
      return None;
    }
    var transactions: seq<Transaction> := [];
    var i := 0;
    while i < |rows|
      invariant 0 <= i <= |rows|
      invariant transactions == MappedRows(rows[..i])
    {
      var transaction := MapExcelRow(rows[i].0, rows[i].1);
      if transaction.Some? {
        transactions := transactions + [transaction.value];
      }
      assert rows[..i + 1][..i] == rows[..i];
      i := i + 1;
    }
    assert rows[..i] == rows;
    loaded := if |transactions| > 0 then Some(transactions) else None;
  }

  // ---- totals and metrics --------------------------------------------------------------

  /** The amounts of the transactions of one type, added up. */
  function TotalOfType(ts: seq<Transaction>, ty: TransactionType): (r: real)
    ensures r >= 0.0
  {
    if ts == [] then 0.0
    else TotalOfType(ts[..|ts| - 1], ty) + (if ts[|ts| - 1].transactionType == ty then ts[|ts| - 1].amount else 0.0)
  }

  /** The amounts of the transactions of one type and one category, added up. */
  function CategoryTotal(ts: seq<Transaction>, ty: TransactionType, c: CategoryType): (r: real)
    ensures r >= 0.0
  {
    if ts == [] then 0.0
    else
      var t := ts[|ts| - 1];
      CategoryTotal(ts[..|ts| - 1], ty, c) + (if t.transactionType == ty && t.category == c then t.amount else 0.0)
  }

  /** `groupby('category')['amount'].sum()` over one type: a total for each category that
      occurs among the transactions of that type. */
  function Breakdown(ts: seq<Transaction>, ty: TransactionType): map<CategoryType, real>
  {
    map c | c in (set t | t in ts && t.transactionType == ty :: t.category) :: CategoryTotal(ts, ty, c)
  }

  /** Adding a category total for each category in a list without repeats. */
  function SumCategories(ts: seq<Transaction>, ty: TransactionType, cs: seq<CategoryType>): real
  {
    if cs == [] then 0.0 else SumCategories(ts, ty, cs[..|cs| - 1]) + CategoryTotal(ts, ty, cs[|cs| - 1])
  }

  lemma {:induction false} SumCategoriesStep(ts: seq<Transaction>, t: Transaction, ty: TransactionType, cs: seq<CategoryType>)
    requires forall i, j :: 0 <= i < j < |cs| ==> cs[i] != cs[j]
    ensures SumCategories(ts + [t], ty, cs)
      == SumCategories(ts, ty, cs) + (if t.transactionType == ty && t.category in cs then t.amount else 0.0)
  {
    if cs != [] {
      var prefix := cs[..|cs| - 1];
      SumCategoriesStep(ts, t, ty, prefix);
      assert (ts + [t])[..|ts + [t]| - 1] == ts;
      assert t.category in cs <==> t.category in prefix || t.category == cs[|cs| - 1];
      if t.category in prefix {
        var i :| 0 <= i < |prefix| && prefix[i] == t.category;
        assert cs[i] == t.category;
      }
    }
  }

  /** The breakdown loses nothing: the per-category totals over all seven categories add up
      to the type's total. */
  lemma {:induction false} BreakdownCoversTotal(ts: seq<Transaction>, ty: TransactionType)
    ensures SumCategories(ts, ty, AllCategories) == TotalOfType(ts, ty)
  {
    if ts == [] {
      SumCategoriesEmpty(ty, AllCategories);
    } else {
      var prefix := ts[..|ts| - 1];
      var t := ts[|ts| - 1];
      BreakdownCoversTotal(prefix, ty);
      CategoriesEnumerated();
      SumCategoriesStep(prefix, t, ty, AllCategories);
      assert prefix + [t] == ts;
    }
  }

  lemma {:induction false} SumCategoriesEmpty(ty: TransactionType, cs: seq<CategoryType>)
    ensures SumCategories([], ty, cs) == 0.0
  {
    if cs != [] {
      SumCategoriesEmpty(ty, cs[..|cs| - 1]);
    }
  }

  /** The breakdown has exactly the categories that occur in the type, each with a positive total. */
  lemma BreakdownKeys(ts: seq<Transaction>, ty: TransactionType)
    ensures forall c :: c in Breakdown(ts, ty) <==> exists t :: t in ts && t.transactionType == ty && t.category == c
    ensures forall c :: c in Breakdown(ts, ty) ==> Breakdown(ts, ty)[c] > 0.0
  {
    forall c | c in Breakdown(ts, ty) ensures CategoryTotal(ts, ty, c) > 0.0 {
      var t :| t in ts && t.transactionType == ty && t.category == c;
      var i :| 0 <= i < |ts| && ts[i] == t;
      CategoryTotalPositive(ts, ty, c, i);
    }
  }

  lemma {:induction false} CategoryTotalPositive(ts: seq<Transaction>, ty: TransactionType, c: CategoryType, i: nat)
    requires i < |ts| && ts[i].transactionType == ty && ts[i].category == c
    ensures CategoryTotal(ts, ty, c) > 0.0
  {
    if i < |ts| - 1 {
      CategoryTotalPositive(ts[..|ts| - 1], ty, c, i);
    }
  }

  /** `profit_margin` and `operating_margin`: net over revenue in percent, or 0 without revenue. */
  function Margin(revenue: real, expenses: real): real
  {
    if revenue > 0.0 then (revenue - expenses) / revenue * 100.0 else 0.0
  }

  /** The `FinancialMetrics` `_calculate_metrics` builds from the transactions and the trend. */
  function MetricsOf(ts: seq<Transaction>, trend: string): FinancialMetrics
  {
    var revenue := TotalOfType(ts, Income);
    var expenses := TotalOfType(ts, Expense);
    FinancialMetrics(revenue, expenses, revenue - expenses, Margin(revenue, expenses), Margin(revenue, expenses),
                     trend, Breakdown(ts, Expense), Breakdown(ts, Income))
  }

  /** Revenue counts income and expenses count expenses only, so investments touch neither;
      both margins are the same figure, it undoes into the net profit, never exceeds 100 and
      is 0 without revenue. */
  lemma MetricsMeaning(ts: seq<Transaction>, trend: string)
    ensures var m := MetricsOf(ts, trend);
      && m.netProfit == m.totalRevenue - m.totalExpenses
      && m.profitMargin == m.operatingMargin
      && (m.totalRevenue > 0.0 ==> m.profitMargin * m.totalRevenue == 100.0 * m.netProfit && m.profitMargin <= 100.0)
      && (m.totalRevenue <= 0.0 ==> m.profitMargin == 0.0)
      && m.cashFlowTrend == trend
  {
    var m := MetricsOf(ts, trend);
    MarginMeaning(m.totalRevenue, m.totalExpenses);
  }

  /** With revenue, the margin undoes into the profit and, expenses being non-negative, is at
      most 100. */
  lemma MarginMeaning(revenue: real, expenses: real)
    requires expenses >= 0.0
    ensures revenue > 0.0 ==> Margin(revenue, expenses) * revenue == 100.0 * (revenue - expenses)
    ensures revenue > 0.0 ==> Margin(revenue, expenses) <= 100.0
  {
    if revenue > 0.0 {
      var q := (revenue - expenses) / revenue;
      assert q * revenue == revenue - expenses;
      assert q <= 1.0;
    }
  }

  /** An investment changes no total, margin or breakdown. */
  lemma InvestmentLeavesMetrics(ts: seq<Transaction>, t: Transaction, trend: string)
    requires t.transactionType == Investment
    ensures MetricsOf(ts + [t], trend) == MetricsOf(ts, trend)
  {
    InvestmentLeavesType(ts, t, Income);
    InvestmentLeavesType(ts, t, Expense);
  }

  lemma InvestmentLeavesType(ts: seq<Transaction>, t: Transaction, ty: TransactionType)
    requires t.transactionType == Investment && ty != Investment
    ensures TotalOfType(ts + [t], ty) == TotalOfType(ts, ty)
    ensures Breakdown(ts + [t], ty) == Breakdown(ts, ty)
  {
    var ts' := ts + [t];
    assert ts'[..|ts'| - 1] == ts;
    forall c ensures CategoryTotal(ts', ty, c) == CategoryTotal(ts, ty, c) {
    }
    assert (set x | x in ts' && x.transactionType == ty :: x.category)
        == (set x | x in ts && x.transactionType == ty :: x.category);
  }

  // ---- months --------------------------------------------------------------------------

  /** A calendar month, the key `strftime('%Y-%m')` groups by. */
  datatype Month = Month(year: nat, month: nat)

  function MonthOf(d: Date): Month
  {
    Month(d.year, d.month)
  }

  /** The order in which the "YYYY-MM" keys sort. */
  predicate MonthBefore(a: Month, b: Month)
  {
    a.year < b.year || (a.year == b.year && a.month < b.month)
  }

  function ZeroPad(s: string, width: nat): (r: string)
    ensures |r| == if |s| < width then width else |s|
    decreases width - |s|
  {
    if |s| >= width then s else ZeroPad("0" + s, width)
  }

  /** The period label of a month, "YYYY-MM". */
  function PeriodLabel(k: Month): string
  {
    ZeroPad(NatToString(k.year), 4) + "-" + ZeroPad(NatToString(k.month), 2)
  }

  predicate Distinct<T(==)>(s: seq<T>)
  {
    forall i, j :: 0 <= i < j < |s| ==> s[i] != s[j]
  }

  /** The months of the transactions in order of first appearance (a dictionary's key order). */
  function MonthsInOrder(ts: seq<Transaction>): (r: seq<Month>)
    ensures Distinct(r)
  {
    if ts == [] then []
    else
      var prev := MonthsInOrder(ts[..|ts| - 1]);
      var k := MonthOf(ts[|ts| - 1].date);
      if k in prev then prev else prev + [k]
  }

  /** The months listed are exactly the months of the transactions. */
  lemma {:induction false} MonthsInOrderCovers(ts: seq<Transaction>)
    ensures forall k :: k in MonthsInOrder(ts) <==> exists t :: t in ts && MonthOf(t.date) == k
  {
    if ts != [] {
      var prefix := ts[..|ts| - 1];
      MonthsInOrderCovers(prefix);
      assert forall t :: t in ts <==> t in prefix || t == ts[|ts| - 1];
    }
  }

  /** Which transactions flow in and which flow out: income in, every other type out. */
  datatype Side = Inflow | Outflow

  predicate OnSide(t: Transaction, side: Side)
  {
    (t.transactionType == Income) == (side == Inflow)
  }

  /** The amounts on one side within month k, added up. */
  function MonthSum(ts: seq<Transaction>, k: Month, side: Side): real
  {
    if ts == [] then 0.0
    else
      var t := ts[|ts| - 1];
      MonthSum(ts[..|ts| - 1], k, side) + (if MonthOf(t.date) == k && OnSide(t, side) then t.amount else 0.0)
  }

  /** The amounts on one side, added up. */
  function SideTotal(ts: seq<Transaction>, side: Side): real
  {
    if ts == [] then 0.0
    else SideTotal(ts[..|ts| - 1], side) + (if OnSide(ts[|ts| - 1], side) then ts[|ts| - 1].amount else 0.0)
  }

  /** Inflow is income; outflow is expenses and investments together. */
  lemma {:induction false} SideTotals(ts: seq<Transaction>)
    ensures SideTotal(ts, Inflow) == TotalOfType(ts, Income)
    ensures SideTotal(ts, Outflow) == TotalOfType(ts, Expense) + TotalOfType(ts, Investment)
  {
    if ts != [] {
      SideTotals(ts[..|ts| - 1]);
    }
  }

  /** A month without transactions sums to 0. */
  lemma {:induction false} MonthSumAbsent(ts: seq<Transaction>, k: Month, side: Side)
    requires k !in MonthsInOrder(ts)
    ensures MonthSum(ts, k, side) == 0.0
  {
    if ts != [] {
      var prefix := ts[..|ts| - 1];
      MonthSumAbsent(prefix, k, side);
    }
  }

  /** Adding the month sums over a list of months. */
  function SumOverMonths(ks: seq<Month>, ts: seq<Transaction>, side: Side): real
  {
    if ks == [] then 0.0 else SumOverMonths(ks[..|ks| - 1], ts, side) + MonthSum(ts, ks[|ks| - 1], side)
  }

  lemma {:induction false} SumOverMonthsStep(ks: seq<Month>, ts: seq<Transaction>, t: Transaction, side: Side)
    requires Distinct(ks)
    ensures SumOverMonths(ks, ts + [t], side)
      == SumOverMonths(ks, ts, side) + (if MonthOf(t.date) in ks && OnSide(t, side) then t.amount else 0.0)
  {
    if ks != [] {
      var prefix := ks[..|ks| - 1];
      SumOverMonthsStep(prefix, ts, t, side);
      assert (ts + [t])[..|ts + [t]| - 1] == ts;
      assert MonthOf(t.date) in ks <==> MonthOf(t.date) in prefix || MonthOf(t.date) == ks[|ks| - 1];
      if MonthOf(t.date) in prefix {
        var i :| 0 <= i < |prefix| && prefix[i] == MonthOf(t.date);
        assert ks[i] == MonthOf(t.date);
      }
    }
  }

  /** Grouping by month loses nothing: over any list of distinct months that covers every
      transaction, the month sums add up to the side's total. */
  lemma {:induction false} MonthSumsConserve(ks: seq<Month>, ts: seq<Transaction>, side: Side)
    requires Distinct(ks)
    requires forall t :: t in ts ==> MonthOf(t.date) in ks
    ensures SumOverMonths(ks, ts, side) == SideTotal(ts, side)
  {
    if ts == [] {
      SumOverMonthsEmpty(ks, side);
    } else {
      var prefix := ts[..|ts| - 1];
      var t := ts[|ts| - 1];
      assert prefix + [t] == ts;
      MonthSumsConserve(ks, prefix, side);
      SumOverMonthsStep(ks, prefix, t, side);
    }
  }

  lemma {:induction false} SumOverMonthsEmpty(ks: seq<Month>, side: Side)
    ensures SumOverMonths(ks, [], side) == 0.0
  {
    if ks != [] {
      SumOverMonthsEmpty(ks[..|ks| - 1], side);
    }
  }

  /** What one more transaction does to the month list and the month sums. */
  lemma MonthsExtend(prefix: seq<Transaction>, t: Transaction)
    ensures var prev := MonthsInOrder(prefix);
      MonthsInOrder(prefix + [t]) == if MonthOf(t.date) in prev then prev else prev + [MonthOf(t.date)]
    ensures forall k, side ::
      MonthSum(prefix + [t], k, side)
        == MonthSum(prefix, k, side) + (if MonthOf(t.date) == k && OnSide(t, side) then t.amount else 0.0)
  {
    assert (prefix + [t])[..|prefix|] == prefix;
  }

  /** `monthly_data` / `monthly_flows`: the per-month totals of both sides. */
  datatype MonthTotals = MonthTotals(income: real, expenses: real)

  /** The grouping loop shared by the trend and the history: a dictionary from month to
      totals, and its keys in insertion order. */
  method GroupByMonth(ts: seq<Transaction>) returns (order: seq<Month>, totals: map<Month, MonthTotals>)
    ensures order == MonthsInOrder(ts)
    ensures forall k :: k in totals <==> k in order
    ensures forall k :: k in totals ==> totals[k] == MonthTotals(MonthSum(ts, k, Inflow), MonthSum(ts, k, Outflow))
  {
    order := [];
    totals := map[];
    var i := 0;
    while i < |ts|
      invariant 0 <= i <= |ts|
      invariant order == MonthsInOrder(ts[..i])
      invariant Grouped(ts[..i], order, totals)
    {
      var t := ts[i];
      var monthKey := MonthOf(t.date);
      ghost var order0, totals0 := order, totals;
      if monthKey !in totals {
        totals := totals[monthKey := MonthTotals(0.0, 0.0)];
        order := order + [monthKey];
      }
      var current := totals[monthKey];
      if t.transactionType == Income {
        totals := totals[monthKey := MonthTotals(current.income + t.amount, current.expenses)];
      } else {
        totals := totals[monthKey := MonthTotals(current.income, current.expenses + t.amount)];
      }
      GroupedStep(ts[..i], t, order0, totals0, order, totals);
      assert ts[..i + 1] == ts[..i] + [t];
      i := i + 1;
    }
    assert ts[..i] == ts;
  }

  /** The dictionary has exactly the listed months as keys, each with its two month sums. */
  ghost predicate Grouped(ts: seq<Transaction>, order: seq<Month>, totals: map<Month, MonthTotals>)
  {
    && (forall k :: k in totals <==> k in order)
    && (forall k :: k in totals ==> totals[k] == MonthTotals(MonthSum(ts, k, Inflow), MonthSum(ts, k, Outflow)))
  }

  /** One pass of the grouping loop: the transaction's month is added when new, and its
      amount goes to that month's income or expenses. */
  lemma GroupedStep(prefix: seq<Transaction>, t: Transaction, order: seq<Month>, totals: map<Month, MonthTotals>,
                    order': seq<Month>, totals': map<Month, MonthTotals>)
    requires order == MonthsInOrder(prefix) && Grouped(prefix, order, totals)
    requires var k := MonthOf(t.date);
      var current := if k in totals then totals[k] else MonthTotals(0.0, 0.0);
      && order' == (if k in totals then order else order + [k])
      && totals' == totals[k := if t.transactionType == Income then MonthTotals(current.income + t.amount, current.expenses)
                                else MonthTotals(current.income, current.expenses + t.amount)]
    ensures order' == MonthsInOrder(prefix + [t]) && Grouped(prefix + [t], order', totals')
  {
    var k := MonthOf(t.date);
    MonthsExtend(prefix, t);
    if k !in totals {
      MonthSumAbsent(prefix, k, Inflow);
      MonthSumAbsent(prefix, k, Outflow);
    }
  }

  // ---- recent trend --------------------------------------------------------------------

  const MinTransactionsForTrend: nat := 6
  const RecentWindowDays: int := 90
  const MinRecentTransactions: nat := 3

  const Positive := "positive"
  const Negative := "negative"
  const Stable := "stable"

  /** The transactions dated on or after day `since`, in order. */
  function RecentFrom(ts: seq<Transaction>, since: int): (r: seq<Transaction>)
    ensures forall t :: t in r <==> t in ts && DayNumber(t.date) >= since
  {
    if ts == [] then []
    else
      var last := ts[|ts| - 1];
      RecentFrom(ts[..|ts| - 1], since) + (if DayNumber(last.date) >= since then [last] else [])
  }

  /** The monthly net flows over a list of months. */
  function FlowsOver(ks: seq<Month>, ts: seq<Transaction>): (r: seq<real>)
    ensures |r| == |ks|
  {
    if ks == [] then []
    else FlowsOver(ks[..|ks| - 1], ts) + [MonthSum(ts, ks[|ks| - 1], Inflow) - MonthSum(ts, ks[|ks| - 1], Outflow)]
  }

  /** The three-point (two-point when there are only two months) monotonicity test on the
      monthly flows. */
  function ClassifyFlows(flows: seq<real>): string
  {
    var n := |flows|;
    if n < 2 then Stable
    else if (if n >= 3 then flows[n - 1] > flows[n - 2] > flows[n - 3] else flows[n - 1] > flows[n - 2]) then Positive
    else if (if n >= 3 then flows[n - 1] < flows[n - 2] < flows[n - 3] else flows[n - 1] < flows[n - 2]) then Negative
    else Stable
  }

  /** `_get_recent_cash_flow_trend` as a function of the transactions and today's date. */
  function TrendOf(ts: seq<Transaction>, today: Date): string
  {
    TrendSince(ts, DayNumber(today) - RecentWindowDays)
  }

  /** The trend read from the transactions dated on or after day `since`. */
  function TrendSince(ts: seq<Transaction>, since: int): string
  {
    if |ts| < MinTransactionsForTrend then Stable
    else
      var recent := RecentFrom(ts, since);
      if |recent| < MinRecentTransactions then Stable
      else ClassifyFlows(FlowsOver(MonthsInOrder(recent), recent))
  }

  function Negated(flows: seq<real>): (r: seq<real>)
    ensures |r| == |flows| && forall i :: 0 <= i < |flows| ==> r[i] == -flows[i]
  {
    if flows == [] then [] else [-flows[0]] + Negated(flows[1..])
  }

  /** The classifier is symmetric: negating every flow swaps positive and negative. */
  lemma ClassifyFlowsSymmetric(flows: seq<real>)
    ensures ClassifyFlows(flows) == Positive <==> ClassifyFlows(Negated(flows)) == Negative
    ensures ClassifyFlows(flows) == Stable <==> ClassifyFlows(Negated(flows)) == Stable
  {
    var g := Negated(flows);
    ClassifyFlowsMeaning(flows);
    ClassifyFlowsMeaning(g);
    TrendLabelsDistinct();
    var n := |flows|;
    if n >= 2 {
      assert g[n - 1] == -flows[n - 1] && g[n - 2] == -flows[n - 2];
      if n >= 3 {
        assert g[n - 3] == -flows[n - 3];
      }
    }
  }

  lemma TrendLabelsDistinct()
    ensures Positive != Negative && Positive != Stable && Negative != Stable
  {
    assert Positive[0] != Negative[0] && Positive[0] != Stable[0] && Negative[0] != Stable[0];
  }

  /** The classifier reads the last three flows (the last two when there are only two):
      positive when they strictly rise, negative when they strictly fall, stable otherwise
      and whenever there are fewer than two. */
  lemma ClassifyFlowsMeaning(flows: seq<real>)
    ensures var n := |flows|;
      && (ClassifyFlows(flows) == Positive <==>
            (n >= 3 && flows[n - 3] < flows[n - 2] < flows[n - 1]) || (n == 2 && flows[0] < flows[1]))
      && (ClassifyFlows(flows) == Negative <==>
            (n >= 3 && flows[n - 3] > flows[n - 2] > flows[n - 1]) || (n == 2 && flows[0] > flows[1]))
    ensures ClassifyFlows(flows) == Positive || ClassifyFlows(flows) == Negative || ClassifyFlows(flows) == Stable
  {
  }

  /** Too little data reads as stable: fewer than six transactions, fewer than three in the
      window, or fewer than two months among those; with enough data the trend is the
      classifier's reading of the window's monthly flows. */
  lemma TrendSinceMeaning(ts: seq<Transaction>, since: int)
    ensures |ts| < MinTransactionsForTrend ==> TrendSince(ts, since) == Stable
    ensures var recent := RecentFrom(ts, since);
      && (|recent| < MinRecentTransactions ==> TrendSince(ts, since) == Stable)
      && (|MonthsInOrder(recent)| < 2 ==> TrendSince(ts, since) == Stable)
      && (|ts| >= MinTransactionsForTrend && |recent| >= MinRecentTransactions ==>
            TrendSince(ts, since) == ClassifyFlows(FlowsOver(MonthsInOrder(recent), recent)))
  {
    var recent := RecentFrom(ts, since);
    var flows := FlowsOver(MonthsInOrder(recent), recent);
    assert |flows| < 2 ==> ClassifyFlows(flows) == Stable;
  }

  function SumReals(xs: seq<real>): real
  {
    if xs == [] then 0.0 else SumReals(xs[..|xs| - 1]) + xs[|xs| - 1]
  }

  lemma {:induction false} FlowsOverSum(ks: seq<Month>, ts: seq<Transaction>)
    ensures SumReals(FlowsOver(ks, ts)) == SumOverMonths(ks, ts, Inflow) - SumOverMonths(ks, ts, Outflow)
  {
    if ks != [] {
      FlowsOverSum(ks[..|ks| - 1], ts);
      var r := FlowsOver(ks, ts);
      assert r[..|r| - 1] == FlowsOver(ks[..|ks| - 1], ts);
    }
  }

  /** The monthly flows the trend compares are the recent window split by month: one per
      month of the window, and together they add up to the window's income minus everything
      else. */
  lemma RecentFlowsConserve(recent: seq<Transaction>)
    ensures |FlowsOver(MonthsInOrder(recent), recent)| == |MonthsInOrder(recent)|
    ensures SumReals(FlowsOver(MonthsInOrder(recent), recent))
      == TotalOfType(recent, Income) - TotalOfType(recent, Expense) - TotalOfType(recent, Investment)
  {
    var ks := MonthsInOrder(recent);
    FlowsOverSum(ks, recent);
    MonthsInOrderCovers(recent);
    MonthSumsConserve(ks, recent, Inflow);
    MonthSumsConserve(ks, recent, Outflow);
    SideTotals(recent);
  }

  // ---- history -------------------------------------------------------------------------

  predicate StrictlyAscending(ks: seq<Month>)
  {
    forall i, j :: 0 <= i < j < |ks| ==> MonthBefore(ks[i], ks[j])
  }

  function InsertMonth(k: Month, s: seq<Month>): (r: seq<Month>)
    ensures |r| == |s| + 1
    ensures forall x :: x in r <==> x == k || x in s
  {
    if s == [] then [k]
    else if MonthBefore(k, s[0]) then [k] + s
    else [s[0]] + InsertMonth(k, s[1..])
  }

  /** `sorted()` on the month keys. */
  function SortMonths(ks: seq<Month>): (r: seq<Month>)
    ensures forall x :: x in r <==> x in ks
  {
    if ks == [] then [] else InsertMonth(ks[|ks| - 1], SortMonths(ks[..|ks| - 1]))
  }

  lemma {:induction false} InsertMonthAscending(k: Month, s: seq<Month>)
    requires StrictlyAscending(s) && k !in s
    ensures StrictlyAscending(InsertMonth(k, s))
  {
    if s != [] && !MonthBefore(k, s[0]) {
      assert s[1..] == s[1..];
      InsertMonthAscending(k, s[1..]);
      var rest := InsertMonth(k, s[1..]);
      assert forall x :: x in rest ==> MonthBefore(s[0], x) by {
        forall x | x in rest ensures MonthBefore(s[0], x) {
          if x != k {
            var j :| 0 <= j < |s[1..]| && s[1..][j] == x;
            assert s[j + 1] == x;
          }
        }
      }
    }
  }

  /** Sorting distinct months gives every one of them once, in strictly ascending order. */
  lemma {:induction false} SortMonthsAscending(ks: seq<Month>)
    requires Distinct(ks)
    ensures StrictlyAscending(SortMonths(ks)) && |SortMonths(ks)| == |ks|
  {
    if ks != [] {
      var prefix := ks[..|ks| - 1];
      SortMonthsAscending(prefix);
      assert ks[|ks| - 1] !in prefix;
      InsertMonthAscending(ks[|ks| - 1], SortMonths(prefix));
    }
  }

  /** The balance a history ends with (0 for no history). */
  function Balance(h: seq<CashFlowData>): real
  {
    if h == [] then 0.0 else h[|h| - 1].cumulativeBalance
  }

  /** The entries `_generate_cash_flow_history` appends for the months ks, in that order. */
  function HistoryOf(ks: seq<Month>, ts: seq<Transaction>): (h: seq<CashFlowData>)
    ensures |h| == |ks|
  {
    if ks == [] then []
    else
      var prev := HistoryOf(ks[..|ks| - 1], ts);
      var k := ks[|ks| - 1];
      var income, expenses := MonthSum(ts, k, Inflow), MonthSum(ts, k, Outflow);
      prev + [CashFlowData(PeriodLabel(k), income, expenses, income - expenses, Balance(prev) + (income - expenses))]
  }

  /** One more month appends one entry, carrying the balance forward. */
  lemma HistoryOfExtend(ks: seq<Month>, k: Month, ts: seq<Transaction>)
    ensures var p, income, expenses := HistoryOf(ks, ts), MonthSum(ts, k, Inflow), MonthSum(ts, k, Outflow);
      HistoryOf(ks + [k], ts)
        == p + [CashFlowData(PeriodLabel(k), income, expenses, income - expenses, Balance(p) + (income - expenses))]
  {
    assert (ks + [k])[..|ks|] == ks;
  }

  /** The same step, for the first j+1 months of a list. */
  lemma HistoryOfStep(ks: seq<Month>, j: nat, ts: seq<Transaction>)
    requires j < |ks|
    ensures var p, income, expenses := HistoryOf(ks[..j], ts), MonthSum(ts, ks[j], Inflow), MonthSum(ts, ks[j], Outflow);
      HistoryOf(ks[..j + 1], ts)
        == p + [CashFlowData(PeriodLabel(ks[j]), income, expenses, income - expenses, Balance(p) + (income - expenses))]
  {
    assert ks[..j + 1] == ks[..j] + [ks[j]];
    HistoryOfExtend(ks[..j], ks[j], ts);
  }

  lemma {:induction false} HistoryOfEntries(ks: seq<Month>, ts: seq<Transaction>)
    ensures var h := HistoryOf(ks, ts);
      forall i :: 0 <= i < |ks| ==>
        h[i].period == PeriodLabel(ks[i])
        && h[i].income == MonthSum(ts, ks[i], Inflow)
        && h[i].expenses == MonthSum(ts, ks[i], Outflow)
  {
    if ks != [] {
      var prefix := ks[..|ks| - 1];
      HistoryOfEntries(prefix, ts);
      var h := HistoryOf(ks, ts);
      var p := HistoryOf(prefix, ts);
      assert h[..|p|] == p;
      forall i | 0 <= i < |prefix|
        ensures h[i].period == PeriodLabel(ks[i])
        ensures h[i].income == MonthSum(ts, ks[i], Inflow)
        ensures h[i].expenses == MonthSum(ts, ks[i], Outflow)
      {
        assert h[i] == p[i];
        assert ks[i] == prefix[i];
      }
    }
  }

  lemma {:induction false} HistoryOfWellFormed(ks: seq<Month>, ts: seq<Transaction>)
    ensures WellFormedFlow(HistoryOf(ks, ts))
  {
    if ks != [] {
      var prefix := ks[..|ks| - 1];
      HistoryOfWellFormed(prefix, ts);
      var p := HistoryOf(prefix, ts);
      var k := ks[|ks| - 1];
      var income, expenses := MonthSum(ts, k, Inflow), MonthSum(ts, k, Outflow);
      assert prefix + [k] == ks;
      HistoryOfExtend(prefix, k, ts);
      assert Balance(p) == Opening(p, |p|);
      WellFormedAppend(p, CashFlowData(PeriodLabel(k), income, expenses, income - expenses, Balance(p) + (income - expenses)));
    }
  }

  lemma {:induction false} HistoryOfSums(ks: seq<Month>, ts: seq<Transaction>)
    ensures SumIncome(HistoryOf(ks, ts)) == SumOverMonths(ks, ts, Inflow)
    ensures SumExpenses(HistoryOf(ks, ts)) == SumOverMonths(ks, ts, Outflow)
  {
    if ks != [] {
      var prefix := ks[..|ks| - 1];
      HistoryOfSums(prefix, ts);
      var h := HistoryOf(ks, ts);
      assert h[..|h| - 1] == HistoryOf(prefix, ts);
    }
  }

  /** The entries `_generate_cash_flow_history` builds for the transactions: one per month,
      in ascending month order. */
  function CashFlowHistory(ts: seq<Transaction>): seq<CashFlowData>
  {
    HistoryOf(SortMonths(MonthsInOrder(ts)), ts)
  }

  /** The history of a set of transactions: one entry per distinct month, months strictly
      ascending, each entry that month's income and outflow (expenses and investments), the
      balance carried forward, and the last balance equal to all income minus all outflow. */
  lemma CashFlowHistoryMeaning(ts: seq<Transaction>)
    ensures var ks := SortMonths(MonthsInOrder(ts));
      var h := HistoryOf(ks, ts);
      && StrictlyAscending(ks)
      && |h| == |MonthsInOrder(ts)|
      && (forall t :: t in ts ==> MonthOf(t.date) in ks)
      && (forall i :: 0 <= i < |h| ==>
            h[i].period == PeriodLabel(ks[i])
            && h[i].income == MonthSum(ts, ks[i], Inflow)
            && h[i].expenses == MonthSum(ts, ks[i], Outflow))
      && WellFormedFlow(h)
      && Balance(h) == TotalOfType(ts, Income) - TotalOfType(ts, Expense) - TotalOfType(ts, Investment)
  {
    var ks := SortMonths(MonthsInOrder(ts));
    var h := HistoryOf(ks, ts);
    SortMonthsAscending(MonthsInOrder(ts));
    MonthsInOrderCovers(ts);
    assert Distinct(ks);
    HistoryOfEntries(ks, ts);
    HistoryOfWellFormed(ks, ts);
    HistoryOfSums(ks, ts);
    MonthSumsConserve(ks, ts, Inflow);
    MonthSumsConserve(ks, ts, Outflow);
    SideTotals(ts);
    WellFormedFlowTotals(h);
  }

  /** `list(monthly_flows.values())`: each month's net flow, in key order. */
  method FlowValues(order: seq<Month>, totals: map<Month, MonthTotals>, ghost ts: seq<Transaction>)
    returns (flows: seq<real>)
    requires forall k :: k in order ==> k in totals
    requires forall k :: k in totals ==> totals[k] == MonthTotals(MonthSum(ts, k, Inflow), MonthSum(ts, k, Outflow))
    ensures flows == FlowsOver(order, ts)
  {
    flows := [];
    var j := 0;
    while j < |order|
      invariant 0 <= j <= |order|
      invariant flows == FlowsOver(order[..j], ts)
    {
      assert order[..j + 1] == order[..j] + [order[j]];
      assert (order[..j] + [order[j]])[..j] == order[..j];
      var totals := totals[order[j]];
      flows := flows + [totals.income - totals.expenses];
      j := j + 1;
    }
    assert order[..j] == order;
  }

  /** The entries of the history loop of `_generate_cash_flow_history`: for each month in the
      given order, its totals, its net and the balance carried forward. */
  method HistoryEntries(periods: seq<Month>, monthlyData: map<Month, MonthTotals>, ghost ts: seq<Transaction>)
    returns (entries: seq<CashFlowData>)
    requires forall k :: k in periods ==> k in monthlyData
    requires forall k :: k in monthlyData ==>
      monthlyData[k] == MonthTotals(MonthSum(ts, k, Inflow), MonthSum(ts, k, Outflow))
    ensures entries == HistoryOf(periods, ts)
  {
    entries := [];
    var cumulativeBalance := 0.0;
    var j := 0;
    while j < |periods|
      invariant 0 <= j <= |periods|
      invariant entries == HistoryOf(periods[..j], ts)
      invariant cumulativeBalance == Balance(entries)
    {
      var period := periods[j];
      var data := monthlyData[period];
      var netFlow := data.income - data.expenses;
      HistoryOfStep(periods, j, ts);
      cumulativeBalance := cumulativeBalance + netFlow;
      entries := entries + [CashFlowData(PeriodLabel(period), data.income, data.expenses, netFlow, cumulativeBalance)];
      j := j + 1;
    }
    assert periods[..j] == periods;
  }

  /** The body of `_generate_cash_flow_history` for a non-empty list: group by month, sort
      the months, and build one entry per month. */
  method MonthlyHistory(ts: seq<Transaction>) returns (entries: seq<CashFlowData>)
    ensures entries == CashFlowHistory(ts)
  {
    var order, monthlyData := GroupByMonth(ts);
    var periods := SortMonths(order);
    entries := HistoryEntries(periods, monthlyData, ts);
  }

  // ---- the service ---------------------------------------------------------------------

  /** `DataService`: the loaded transactions, the metrics once computed, and the cash-flow
      history, which only ever grows. */
  class DataService {
    var transactions: seq<Transaction>
    var metrics: Option<FinancialMetrics>
    var cashFlowHistory: seq<CashFlowData>

    constructor ()
      ensures transactions == [] && metrics.None? && cashFlowHistory == []
    {
      transactions := [];
      metrics := None;
      cashFlowHistory := [];
    }

    /** `_get_recent_cash_flow_trend`, with today's date passed in. */
    method RecentCashFlowTrend(today: Date) returns (trend: string)
      ensures trend == TrendOf(transactions, today)
      ensures trend == Positive || trend == Negative || trend == Stable
    {
      if |transactions| < MinTransactionsForTrend {
        return Stable;
      }
      var recentDate := DayNumber(today) - RecentWindowDays;
      var recent := RecentFrom(transactions, recentDate);
      if |recent| < MinRecentTransactions {
        return Stable;
      }

      var order, monthlyFlows := GroupByMonth(recent);
      var flows := FlowValues(order, monthlyFlows, recent);
      trend := ClassifyFlows(flows);
    }

    /** `_calculate_metrics`: nothing without transactions; otherwise the metrics of the
        transactions with the recent trend. */
    method CalculateMetrics(today: Date)
      modifies this`metrics
      ensures transactions == [] ==> metrics == old(metrics)
      ensures transactions != [] ==> metrics == Some(MetricsOf(transactions, TrendOf(transactions, today)))
    {
      if transactions == [] {
        return;
      }
      var recentMonths := RecentCashFlowTrend(today);
      metrics := Some(MetricsOf(transactions, recentMonths));
    }

    /** `_generate_cash_flow_history`: nothing without transactions; otherwise one entry per
        month in sorted order is appended to what the history already holds. */
    method GenerateCashFlowHistory()
      modifies this`cashFlowHistory
      ensures transactions == [] ==> cashFlowHistory == old(cashFlowHistory)
      ensures transactions != [] ==>
        cashFlowHistory == old(cashFlowHistory) + CashFlowHistory(transactions)
    {
      if transactions == [] {
        return;
      }
      var entries := MonthlyHistory(transactions);
      cashFlowHistory := cashFlowHistory + entries;
    }

    /** `load_financial_data` once the two sheets are read: company transactions are added as
        they are, personal ones only when relevant to the business; then the metrics and the
        history are computed. */
    method LoadFinancialData(company: Option<seq<Transaction>>, personal: Option<seq<Transaction>>, today: Date)
      modifies this
      ensures transactions == old(transactions)
        + (if company.Some? then company.value else [])
        + (if personal.Some? then RelevantOnly(personal.value) else [])
      ensures transactions != [] ==> metrics == Some(MetricsOf(transactions, TrendOf(transactions, today)))
      ensures transactions == [] ==> metrics == old(metrics) && cashFlowHistory == old(cashFlowHistory)
      ensures transactions != [] ==>
        cashFlowHistory == old(cashFlowHistory) + CashFlowHistory(transactions)
    {
      ghost var fromCompany := if company.Some? then company.value else [];
      ghost var fromPersonal := if personal.Some? then RelevantOnly(personal.value) else [];
      if company.Some? && |company.value| > 0 {
        transactions := transactions + company.value;
      }
      assert transactions == old(transactions) + fromCompany;
      if personal.Some? && |personal.value| > 0 {
        var relevantPersonal := RelevantOnly(personal.value);
        transactions := transactions + relevantPersonal;
      }
      assert transactions == old(transactions) + fromCompany + fromPersonal;
      CalculateMetrics(today);
      GenerateCashFlowHistory();
    }
  }
}
