/** The warehouse service's pure parts: the multiplier simulation over historical rows, the
    chat context's averages, and the mapping of warehouse rows to transaction records with
    its category and type normalisation tables. The SQL itself is not modelled: query
    results are parameters. */
module Snowflake {
  import opened Wrappers
  import opened Text
  import opened FinancialModels
  import DS = DataService

  // ---- the multiplier simulation -------------------------------------------------------

  /** One historical row: its `transaction_type` text, its category and its amount (the
      date column is selected but not used). */
  datatype HistoricalRow = HistoricalRow(transactionType: string, category: string, amount: real)

  const IncomeText := "income"
  const ExpenseText := "expense"
  const IncomeChangeKey := "income_change"
  const ExpenseChangeKey := "expense_change"

  /** `sum(row[2] for row in rows if row[0] == ty)`. */
  function SumOfType(rows: seq<HistoricalRow>, ty: string): real
  {
    if rows == [] then 0.0
    else SumOfType(rows[..|rows| - 1], ty) + (if rows[|rows| - 1].transactionType == ty then rows[|rows| - 1].amount else 0.0)
  }

  /** `scenario.get(key, 1.0)`: a missing multiplier leaves the figure as it is. */
  function Multiplier(scenario: map<string, real>, key: string): real
  {
    if key in scenario then scenario[key] else 1.0
  }

  /** The figures `_process_simulation` returns. */
  datatype SimulationFigures = SimulationFigures(
    currentIncome: real,
    currentExpenses: real,
    currentNet: real,
    projectedIncome: real,
    projectedExpenses: real,
    projectedNet: real,
    incomeChangePercent: real,
    expenseChangePercent: real,
    netChangePercent: real)

  /** `_process_simulation`: the year's income and expenses, each scaled by its multiplier,
      with the changes as percentages. */
  function ProcessSimulation(rows: seq<HistoricalRow>, scenario: map<string, real>): SimulationFigures
  {
    var totalIncome := SumOfType(rows, IncomeText);
    var totalExpenses := SumOfType(rows, ExpenseText);
    var incomeMultiplier := Multiplier(scenario, IncomeChangeKey);
    var expenseMultiplier := Multiplier(scenario, ExpenseChangeKey);
    var projectedIncome := totalIncome * incomeMultiplier;
    var projectedExpenses := totalExpenses * expenseMultiplier;
    var projectedNet := projectedIncome - projectedExpenses;
    var currentNet := totalIncome - totalExpenses;
    SimulationFigures(totalIncome, totalExpenses, currentNet, projectedIncome, projectedExpenses, projectedNet,
                      (incomeMultiplier - 1.0) * 100.0, (expenseMultiplier - 1.0) * 100.0,
                      if currentNet != 0.0 then (projectedNet / currentNet - 1.0) * 100.0 else 0.0)
  }

  /** A multiplier written as a change percentage scales a figure the same way. */
  lemma ScaledByPercent(current: real, m: real)
    ensures current * m == current * (1.0 + ((m - 1.0) * 100.0) / 100.0)
  {
    assert ((m - 1.0) * 100.0) / 100.0 == m - 1.0;
  }

  /** A ratio turned into a change percentage turns back into the ratio. */
  lemma PercentChangeRoundTrip(current: real, projected: real)
    requires current != 0.0
    ensures projected == current * (1.0 + ((projected / current - 1.0) * 100.0) / 100.0)
  {
    var q := projected / current;
    assert q * current == projected;
    ScaledByPercent(current, q);
  }

  /** Summing by type is additive: the rows of two parts add up to the two parts' sums. */
  lemma {:induction false} SumOfTypeAppend(a: seq<HistoricalRow>, b: seq<HistoricalRow>, ty: string)
    ensures SumOfType(a + b, ty) == SumOfType(a, ty) + SumOfType(b, ty)
    decreases |b|
  {
    if b == [] {
      assert a + b == a;
    } else {
      var n := |b| - 1;
      assert (a + b)[..|a + b| - 1] == a + b[..n];
      assert (a + b)[|a + b| - 1] == b[n];
      SumOfTypeAppend(a, b[..n], ty);
    }
  }

  /** The current figures of a year split in two parts are the parts' figures added up, and
      each net is income minus expenses. */
  lemma ProcessSimulationTotals(a: seq<HistoricalRow>, b: seq<HistoricalRow>, scenario: map<string, real>)
    ensures var r, ra, rb := ProcessSimulation(a + b, scenario), ProcessSimulation(a, scenario), ProcessSimulation(b, scenario);
      && r.currentIncome == ra.currentIncome + rb.currentIncome
      && r.currentExpenses == ra.currentExpenses + rb.currentExpenses
      && r.currentNet == ra.currentNet + rb.currentNet
      && r.currentNet == r.currentIncome - r.currentExpenses
      && r.projectedNet == r.projectedIncome - r.projectedExpenses
  {
    SumOfTypeAppend(a, b, IncomeText);
    SumOfTypeAppend(a, b, ExpenseText);
  }

  /** Each change percentage turns the current figure into the projected one. */
  lemma ProcessSimulationPercentages(rows: seq<HistoricalRow>, scenario: map<string, real>)
    ensures var r := ProcessSimulation(rows, scenario);
      && r.projectedIncome == r.currentIncome * (1.0 + r.incomeChangePercent / 100.0)
      && r.projectedExpenses == r.currentExpenses * (1.0 + r.expenseChangePercent / 100.0)
  {
    var r := ProcessSimulation(rows, scenario);
    ScaledByPercent(r.currentIncome, Multiplier(scenario, IncomeChangeKey));
    ScaledByPercent(r.currentExpenses, Multiplier(scenario, ExpenseChangeKey));
  }

  /** The net change percentage turns the current net into the projected one, and is 0 when
      the current net is 0. */
  lemma ProcessSimulationNetChange(rows: seq<HistoricalRow>, scenario: map<string, real>)
    ensures var r := ProcessSimulation(rows, scenario);
      && (r.currentNet != 0.0 ==> r.projectedNet == r.currentNet * (1.0 + r.netChangePercent / 100.0))
      && (r.currentNet == 0.0 ==> r.netChangePercent == 0.0)
  {
    var r := ProcessSimulation(rows, scenario);
    if r.currentNet != 0.0 {
      PercentChangeRoundTrip(r.currentNet, r.projectedNet);
    }
  }

  /** A scenario without multipliers projects the current figures unchanged, with every
      change at 0. */
  lemma UnchangedScenario(rows: seq<HistoricalRow>, scenario: map<string, real>)
    requires IncomeChangeKey !in scenario && ExpenseChangeKey !in scenario
    ensures var r := ProcessSimulation(rows, scenario);
      && r.projectedIncome == r.currentIncome && r.projectedExpenses == r.currentExpenses
      && r.projectedNet == r.currentNet
      && r.incomeChangePercent == 0.0 && r.expenseChangePercent == 0.0 && r.netChangePercent == 0.0
  {
    var r := ProcessSimulation(rows, scenario);
    if r.currentNet != 0.0 {
      assert r.projectedNet / r.currentNet == 1.0;
    }
  }

  /** Scaling income and expenses by the same multiplier scales the net by it too. */
  lemma UniformMultiplier(rows: seq<HistoricalRow>, scenario: map<string, real>)
    requires Multiplier(scenario, IncomeChangeKey) == Multiplier(scenario, ExpenseChangeKey)
    ensures var r := ProcessSimulation(rows, scenario);
      r.projectedNet == r.currentNet * Multiplier(scenario, IncomeChangeKey)
      && (r.currentNet != 0.0 ==> r.netChangePercent == r.incomeChangePercent)
  {
    var r := ProcessSimulation(rows, scenario);
    var m := Multiplier(scenario, IncomeChangeKey);
    var income, expenses := r.currentIncome, r.currentExpenses;
    assert r.projectedNet == income * m - expenses * m;
    assert income * m - expenses * m == (income - expenses) * m;
    if r.currentNet != 0.0 {
      var net := r.currentNet;
      assert r.projectedNet == net * m;
      assert (net * m) / net == m;
    }
  }

  /** Rows whose type is neither "income" nor "expense" (investments, or a type in another
      case) play no part. */
  lemma OtherTypesIgnored(rows: seq<HistoricalRow>, row: HistoricalRow, scenario: map<string, real>)
    requires row.transactionType != IncomeText && row.transactionType != ExpenseText
    ensures ProcessSimulation(rows + [row], scenario) == ProcessSimulation(rows, scenario)
  {
    assert (rows + [row])[..|rows|] == rows;
  }

  // ---- the chat context ----------------------------------------------------------------

  /** One row of the monthly analysis, newest month first. */
  datatype MonthSummary = MonthSummary(month: string, totalIncome: real, totalExpenses: real, netIncome: real)

  /** The chat context's figures (the category breakdown and trend metrics it passes through
      from the warehouse are not modelled). */
  datatype ChatContext = ChatContext(
    pymeId: string,
    latestMonth: Option<MonthSummary>,
    avgMonthlyIncome: real,
    avgMonthlyExpenses: real,
    profitMargin: real,
    dataPeriod: string)

  const ChatWindowDays: nat := 90
  const DataPeriodLabel := "90 días"

  function SumMonthIncome(ms: seq<MonthSummary>): real
  {
    if ms == [] then 0.0 else SumMonthIncome(ms[..|ms| - 1]) + ms[|ms| - 1].totalIncome
  }

  function SumMonthExpenses(ms: seq<MonthSummary>): real
  {
    if ms == [] then 0.0 else SumMonthExpenses(ms[..|ms| - 1]) + ms[|ms| - 1].totalExpenses
  }

  /** `get_chat_context` once the 90-day analysis is in: nothing when the analysis came back
      empty; otherwise the newest month, the monthly averages (0 without months) and the
      margin of the averages (0 unless average income is positive). */
  function ChatContextOf(pymeId: string, analysis: Option<seq<MonthSummary>>): (r: Option<ChatContext>)
    ensures r.None? <==> analysis.None?
    ensures r.Some? ==> r.value.pymeId == pymeId && r.value.dataPeriod == DataPeriodLabel
    ensures r.Some? && analysis.value == [] ==>
      r.value.latestMonth.None? && r.value.avgMonthlyIncome == 0.0 && r.value.avgMonthlyExpenses == 0.0
    ensures r.Some? && analysis.value != [] ==>
      && r.value.latestMonth == Some(analysis.value[0])
      && r.value.avgMonthlyIncome * (|analysis.value| as real) == SumMonthIncome(analysis.value)
      && r.value.avgMonthlyExpenses * (|analysis.value| as real) == SumMonthExpenses(analysis.value)
    ensures r.Some? && r.value.avgMonthlyIncome > 0.0 ==>
      r.value.profitMargin * r.value.avgMonthlyIncome == 100.0 * (r.value.avgMonthlyIncome - r.value.avgMonthlyExpenses)
    ensures r.Some? && r.value.avgMonthlyIncome <= 0.0 ==> r.value.profitMargin == 0.0
  {
    if analysis.None? then None
    else
      var monthlyData := analysis.value;
      var latest := if monthlyData != [] then Some(monthlyData[0]) else None;
      var avgIncome := if monthlyData != [] then SumMonthIncome(monthlyData) / (|monthlyData| as real) else 0.0;
      var avgExpenses := if monthlyData != [] then SumMonthExpenses(monthlyData) / (|monthlyData| as real) else 0.0;
      var margin := DS.Margin(avgIncome, avgExpenses);
      assert avgIncome > 0.0 ==> margin * avgIncome == 100.0 * (avgIncome - avgExpenses) by {
        if avgIncome > 0.0 {
          var q := (avgIncome - avgExpenses) / avgIncome;
          assert q * avgIncome == avgIncome - avgExpenses;
        }
      }
      Some(ChatContext(pymeId, latest, avgIncome, avgExpenses, margin, DataPeriodLabel))
  }

  /** Averaging does not move the margin: the margin of the monthly averages is the margin of
      the period's totals. */
  lemma ChatMarginIsPeriodMargin(pymeId: string, ms: seq<MonthSummary>)
    requires ms != []
    ensures ChatContextOf(pymeId, Some(ms)).value.profitMargin == DS.Margin(SumMonthIncome(ms), SumMonthExpenses(ms))
  {
    var n := |ms| as real;
    var ti, te := SumMonthIncome(ms), SumMonthExpenses(ms);
    assert ChatContextOf(pymeId, Some(ms)).value.profitMargin == DS.Margin(ti / n, te / n);
    MarginOfAverages(ti, te, n);
  }

  /** Dividing income and expenses by the same positive count leaves the margin alone. */
  lemma MarginOfAverages(ti: real, te: real, n: real)
    requires n > 0.0
    ensures DS.Margin(ti / n, te / n) == DS.Margin(ti, te)
  {
    var ai, ae := ti / n, te / n;
    assert ai * n == ti && ae * n == te;
    assert ai > 0.0 <==> ti > 0.0;
    if ti > 0.0 {
      assert (ai - ae) * n == ti - te;
      calc {
        (ai - ae) / ai;
        ((ai - ae) * n) / (ai * n);
        (ti - te) / ti;
      }
    }
  }

  // ---- row normalisation ---------------------------------------------------------------

  const SalesNames: seq<string> := ["venta", "ventas", "sales"]
  const PersonnelNames: seq<string> := ["personal", "nomina", "nómina", "personnel"]
  const MarketingNames: seq<string> := ["marketing", "publicidad", "promocion"]
  const EquipmentNames: seq<string> := ["equipo", "inventario", "equipment", "maquinaria"]
  const UtilitiesNames: seq<string> := ["servicios", "utilities", "publicos", "luz", "agua"]
  const OperatingNames: seq<string> := ["costos", "gastos operativos", "operating", "infraestructur"]

  /** A nullable text column lower-cased, or "" when it is NULL or empty. */
  function LoweredOrEmpty(cell: Option<string>): string
  {
    if cell.Some? && cell.value != [] then Lower(cell.value) else ""
  }

  /** The category column mapped onto the category enumeration: exact matches against the
      synonym lists, operating expenses for everything else. */
  function NormaliseCategory(cell: Option<string>): CategoryType
  {
    CategoryOfKey(LoweredOrEmpty(cell))
  }

  /** The synonym table itself, applied to the lower-cased column. */
  function CategoryOfKey(categoria: string): CategoryType
  {
    if categoria in SalesNames then Sales
    else if categoria in PersonnelNames then Personnel
    else if categoria in MarketingNames then Marketing
    else if categoria in EquipmentNames then Equipment
    else if categoria in UtilitiesNames then Utilities
    else if categoria in OperatingNames then OperatingExpenses
    else OperatingExpenses
  }

  /** "other" is never produced, and each synonym list decides its own category whatever
      order the lists are tried in: the lists share no word. */
  lemma NormaliseCategoryMeaning(cell: Option<string>)
    ensures NormaliseCategory(cell) != Other
    ensures NormaliseCategory(cell) == Sales <==> LoweredOrEmpty(cell) in SalesNames
    ensures NormaliseCategory(cell) == Personnel <==> LoweredOrEmpty(cell) in PersonnelNames
    ensures NormaliseCategory(cell) == Marketing <==> LoweredOrEmpty(cell) in MarketingNames
    ensures NormaliseCategory(cell) == Equipment <==> LoweredOrEmpty(cell) in EquipmentNames
    ensures NormaliseCategory(cell) == Utilities <==> LoweredOrEmpty(cell) in UtilitiesNames
  {
    CategoryOfKeyMeaning(LoweredOrEmpty(cell));
  }

  lemma CategoryOfKeyMeaning(key: string)
    ensures CategoryOfKey(key) != Other
    ensures CategoryOfKey(key) == Sales <==> key in SalesNames
    ensures CategoryOfKey(key) == Personnel <==> key in PersonnelNames
    ensures CategoryOfKey(key) == Marketing <==> key in MarketingNames
    ensures CategoryOfKey(key) == Equipment <==> key in EquipmentNames
    ensures CategoryOfKey(key) == Utilities <==> key in UtilitiesNames
  {
  }

  /** Text already in lower case is its own lower-case form. */
  lemma LowerKeeps(s: string)
    requires s != [] && forall i :: 0 <= i < |s| ==> LowerChar(s[i]) == s[i]
    ensures LoweredOrEmpty(Some(s)) == s
  {
    assert Lower(s) == s;
  }

  /** A category's own value maps back to it, except "other", which becomes operating
      expenses; text in another case maps like its lower-case form. */
  lemma CategoryValuesMapBack()
    ensures forall c :: c != Other ==> NormaliseCategory(Some(CategoryValue(c))) == c
    ensures NormaliseCategory(Some("other")) == OperatingExpenses
    ensures NormaliseCategory(Some("Ventas")) == Sales
  {
    forall c | c != Other ensures NormaliseCategory(Some(CategoryValue(c))) == c {
      CategoryValueMapsBack(c);
    }
    assert CategoryOfKey("other") == OperatingExpenses;
    LowerKeeps("other");
    CapitalisedSalesMapsBack();
  }

  lemma CapitalisedSalesMapsBack()
    ensures NormaliseCategory(Some("Ventas")) == Sales
  {
    assert CategoryOfKey("ventas") == Sales;
    assert Lower("Ventas") == "ventas";
  }

  /** No synonym is longer than 17 characters, so longer text is operating expenses. */
  lemma LongTextUnlisted(cell: Option<string>)
    requires |LoweredOrEmpty(cell)| > 17
    ensures NormaliseCategory(cell) == OperatingExpenses
  {
    var key := LoweredOrEmpty(cell);
    assert forall w :: w in SalesNames + PersonnelNames + MarketingNames + EquipmentNames + UtilitiesNames ==> |w| <= 17;
    assert key !in SalesNames + PersonnelNames + MarketingNames + EquipmentNames + UtilitiesNames;
  }

  lemma CategoryValueMapsBack(c: CategoryType)
    requires c != Other
    ensures NormaliseCategory(Some(CategoryValue(c))) == c
  {
    match c
    case Sales => SalesMapsBack();
    case OperatingExpenses => OperatingMapsBack();
    case Personnel => PersonnelMapsBack();
    case Marketing => MarketingMapsBack();
    case Equipment => EquipmentMapsBack();
    case Utilities => UtilitiesMapsBack();
  }

  lemma SalesMapsBack()
    ensures NormaliseCategory(Some("sales")) == Sales
  {
    assert CategoryOfKey("sales") == Sales;
    LowerKeeps("sales");
  }

  lemma PersonnelMapsBack()
    ensures NormaliseCategory(Some("personnel")) == Personnel
  {
    assert CategoryOfKey("personnel") == Personnel;
    LowerKeeps("personnel");
  }

  lemma MarketingMapsBack()
    ensures NormaliseCategory(Some("marketing")) == Marketing
  {
    assert CategoryOfKey("marketing") == Marketing;
    LowerKeeps("marketing");
  }

  lemma EquipmentMapsBack()
    ensures NormaliseCategory(Some("equipment")) == Equipment
  {
    assert CategoryOfKey("equipment") == Equipment;
    LowerKeeps("equipment");
  }

  lemma UtilitiesMapsBack()
    ensures NormaliseCategory(Some("utilities")) == Utilities
  {
    assert CategoryOfKey("utilities") == Utilities;
    LowerKeeps("utilities");
  }

  lemma OperatingMapsBack()
    ensures NormaliseCategory(Some("operating_expenses")) == OperatingExpenses
  {
    LowerKeeps("operating_expenses");
    LongTextUnlisted(Some("operating_expenses"));
  }

  const IncomeNames: seq<string> := ["ingreso", "income", "i"]
  const ExpenseNames: seq<string> := ["gasto", "expense", "e"]
  const InvestmentNames: seq<string> := ["inversion", "investment"]

  /** The type column mapped onto the type enumeration: expense unless the text names income
      or investment. */
  function NormaliseType(cell: Option<string>): TransactionType
  {
    TypeOfKey(LoweredOrEmpty(cell))
  }

  /** The type table itself, applied to the lower-cased column. */
  function TypeOfKey(tipo: string): TransactionType
  {
    if tipo in IncomeNames then Income
    else if tipo in ExpenseNames then Expense
    else if tipo in InvestmentNames then Investment
    else Expense
  }

  /** Income and investment are exactly the texts on their lists; everything else, the
      accented "inversión" included, is an expense. */
  lemma NormaliseTypeMeaning(cell: Option<string>)
    ensures NormaliseType(cell) == Income <==> LoweredOrEmpty(cell) in IncomeNames
    ensures NormaliseType(cell) == Investment <==> LoweredOrEmpty(cell) in InvestmentNames
    ensures NormaliseType(Some("inversión")) == Expense
  {
    TypeOfKeyMeaning(LoweredOrEmpty(cell));
    AccentedInvestmentIsExpense();
  }

  lemma TypeOfKeyMeaning(key: string)
    ensures TypeOfKey(key) == Income <==> key in IncomeNames
    ensures TypeOfKey(key) == Investment <==> key in InvestmentNames
  {
  }

  lemma AccentedInvestmentIsExpense()
    ensures NormaliseType(Some("inversión")) == Expense
  {
    assert TypeOfKey("inversión") == Expense;
    LowerKeeps("inversión");
  }

  /** Every type's own value maps back to it; a missing type is an expense. */
  lemma TypeValuesMapBack()
    ensures forall t :: NormaliseType(Some(TypeValue(t))) == t
    ensures NormaliseType(None) == Expense
  {
    forall t ensures NormaliseType(Some(TypeValue(t))) == t {
      match t
      case Income =>
        assert TypeOfKey("income") == Income;
        LowerKeeps("income");
      case Expense =>
        assert TypeOfKey("expense") == Expense;
        LowerKeeps("expense");
      case Investment =>
        assert TypeOfKey("investment") == Investment;
        LowerKeeps("investment");
    }
  }

  // ---- row mapping ---------------------------------------------------------------------

  /** The id column: `ROW_NUMBER()` gives an integer, the transactions table a text id. */
  datatype RowId = NumberId(n: int) | TextId(text: string)

  /** One row of the query result. The date arrives already as text (its `isoformat`/`str`
      conversion is not modelled) and the amount already as a number (`float()` raising on
      it is not modelled). */
  datatype WarehouseRow = WarehouseRow(
    id: RowId,
    date: string,
    amount: real,
    description: Option<string>,
    category: Option<string>,
    transactionType: Option<string>)

  /** The record each row becomes. */
  datatype WarehouseTransaction = WarehouseTransaction(
    id: int,
    date: string,
    amount: real,
    description: string,
    category: CategoryType,
    transactionType: TransactionType)

  /** `text.split('_')[-1]`: the text after the last underscore. */
  function LastPiece(text: string): string
  {
    var pieces := Split(text, '_');
    pieces[|pieces| - 1]
  }

  /** The first separator of `s` is at `i` when `s[i]` is one and none comes before it. */
  lemma IndexOfIs(s: string, c: char, i: nat)
    requires i < |s| && s[i] == c && c !in s[..i]
    ensures IndexOf(s, c) == i
  {
  }

  lemma {:induction false} LastPieceAfterSeparator(p: string, q: string)
    requires '_' !in q
    ensures LastPiece(p + "_" + q) == q
    decreases |p|
  {
    var s := p + "_" + q;
    if '_' in p {
      var i := IndexOf(p, '_');
      assert s[..i] == p[..i];
      IndexOfIs(s, '_', i);
      assert s[i + 1..] == p[i + 1..] + "_" + q;
      LastPieceAfterSeparator(p[i + 1..], q);
      var rest := Split(s[i + 1..], '_');
      assert Split(s, '_') == [s[..i]] + rest;
    } else {
      assert s[..|p|] == p && s[|p|] == '_';
      IndexOfIs(s, '_', |p|);
      assert s[|p| + 1..] == q;
      assert Split(q, '_') == [q];
    }
  }

  /** The id as written: an integer id (no underscore in its text) gives 0; a text id with an
      underscore gives the integer after the last one, and `int()` raising on it is None. */
  function IdAsWritten(id: RowId): Option<int>
  {
    match id
    case NumberId(_) => Some(0)
    case TextId(text) => if '_' in text then ParseInt(LastPiece(text)) else Some(0)
  }

  /** The id as evidently intended: the number after the last underscore when there is one,
      and 0 otherwise, as for ids without an underscore. */
  function IdOf(id: RowId): (n: int)
    ensures id.NumberId? ==> n == 0
    ensures id.TextId? && '_' !in id.text ==> n == 0
    ensures IdAsWritten(id).Some? ==> n == IdAsWritten(id).value
  {
    var parsed := IdAsWritten(id);
    if parsed.Some? then parsed.value else 0
  }

  /** In terms of the text: the number after the last underscore, 0 when what follows it is
      not a number; in particular a prefix, an underscore and `str(k)` give back `k`. */
  lemma IdOfSeparated(p: string, q: string)
    requires '_' !in q
    ensures ParseInt(q).Some? ==> IdOf(TextId(p + "_" + q)) == ParseInt(q).value
    ensures ParseInt(q).None? ==> IdOf(TextId(p + "_" + q)) == 0
  {
    var s := p + "_" + q;
    assert s[|p|] == '_';
    LastPieceAfterSeparator(p, q);
  }

  lemma IdOfNumbered(p: string, k: nat)
    ensures IdOf(TextId(p + "_" + NatToString(k))) == k
  {
    var q := NatToString(k);
    assert '_' !in q by {
      forall i | 0 <= i < |q| ensures q[i] != '_' {
        assert IsDigit(q[i]);
      }
    }
    IdOfSeparated(p, q);
    ParseIntOfNatToString(k);
  }

  /** One row as a record: NULL description as "", category and type normalised. */
  function MapRow(row: WarehouseRow, id: int): WarehouseTransaction
  {
    WarehouseTransaction(id, row.date, row.amount,
                         if row.description.Some? then row.description.value else "",
                         NormaliseCategory(row.category), NormaliseType(row.transactionType))
  }

  /** One row mapped with its id as written, or None when that id does not parse. */
  function RowAsWritten(row: WarehouseRow): Option<WarehouseTransaction>
  {
    var id := IdAsWritten(row.id);
    if id.Some? then Some(MapRow(row, id.value)) else None
  }

  /** Each row mapped with its id as written. */
  function RowsAsWritten(rows: seq<WarehouseRow>): (xs: seq<Option<WarehouseTransaction>>)
    ensures |xs| == |rows| && forall i :: 0 <= i < |rows| ==> xs[i] == RowAsWritten(rows[i])
  {
    seq(|rows|, i requires 0 <= i < |rows| => RowAsWritten(rows[i]))
  }

  /** The rows mapped with their ids as written, or None as soon as one id fails to parse. */
  function MappedAsWritten(rows: seq<WarehouseRow>): (r: Option<seq<WarehouseTransaction>>)
    ensures r.None? <==> exists i :: 0 <= i < |rows| && IdAsWritten(rows[i].id).None?
    ensures r.Some? ==> (|r.value| == |rows|
      && forall i :: 0 <= i < |rows| ==> r.value[i] == MapRow(rows[i], IdAsWritten(rows[i].id).value))
  {
    var xs := RowsAsWritten(rows);
    var r := AllPresent(xs);
    assert r.None? ==> exists i :: 0 <= i < |rows| && IdAsWritten(rows[i].id).None? by {
      if r.None? {
        var i :| 0 <= i < |xs| && xs[i].None?;
        assert IdAsWritten(rows[i].id).None?;
      }
    }
    r
  }

  /** The mapping loop as written: an id that does not parse raises out of the loop, and the
      handler around it returns an empty list for the whole query. */
  method MapRowsAsWritten(rows: seq<WarehouseRow>) returns (result: seq<WarehouseTransaction>)
    ensures result == if MappedAsWritten(rows).Some? then MappedAsWritten(rows).value else []
  {
    result := [];
    var i := 0;
    while i < |rows|
      invariant 0 <= i <= |rows| && |result| == i
      invariant ListedSoFar(rows, result)
    {
      var mapped := RowAsWritten(rows[i]);
      if mapped.None? {
        WrittenRowFails(rows, i);
        return [];
      }
      ListedStep(rows, result, mapped.value);
      result := result + [mapped.value];
      i := i + 1;
    }
    WrittenRowsListed(rows, result);
  }

  /** The records so far are the first rows, each mapped with its id as written. */
  ghost predicate ListedSoFar(rows: seq<WarehouseRow>, result: seq<WarehouseTransaction>)
  {
    PresentPrefix(RowsAsWritten(rows), result)
  }

  lemma ListedStep(rows: seq<WarehouseRow>, result: seq<WarehouseTransaction>, t: WarehouseTransaction)
    requires ListedSoFar(rows, result) && |result| < |rows| && RowAsWritten(rows[|result|]) == Some(t)
    ensures ListedSoFar(rows, result + [t])
  {
    PresentPrefixStep(RowsAsWritten(rows), result, t);
  }

  lemma WrittenRowFails(rows: seq<WarehouseRow>, i: nat)
    requires i < |rows| && RowAsWritten(rows[i]).None?
    ensures MappedAsWritten(rows).None?
  {
    assert IdAsWritten(rows[i].id).None?;
  }

  lemma WrittenRowsListed(rows: seq<WarehouseRow>, result: seq<WarehouseTransaction>)
    requires |result| == |rows| && ListedSoFar(rows, result)
    ensures MappedAsWritten(rows) == Some(result)
  {
    var xs := RowsAsWritten(rows);
    assert MappedAsWritten(rows) == AllPresent(xs);
    assert AllPresent(xs).value == result;
  }

  /** Once a prefix fails, the whole list fails. */
  lemma MappedAsWrittenFails(rows: seq<WarehouseRow>, k: nat)
    requires k <= |rows| && MappedAsWritten(rows[..k]).None?
    ensures MappedAsWritten(rows).None?
  {
    var i :| 0 <= i < k && IdAsWritten(rows[..k][i].id).None?;
    assert rows[..k][i] == rows[i];
  }

  /** One row as a record with its intended id. */
  function Record(row: WarehouseRow): WarehouseTransaction
  {
    MapRow(row, IdOf(row.id))
  }

  /** The rows mapped with the intended ids: every row is listed. */
  function Mapped(rows: seq<WarehouseRow>): (r: seq<WarehouseTransaction>)
    ensures |r| == |rows|
    ensures forall i :: 0 <= i < |rows| ==> r[i] == MapRow(rows[i], IdOf(rows[i].id))
  {
    MapSeq(Record, rows)
  }

  /** The mapping loop as intended: a row's id that does not parse becomes 0. */
  method MapRows(rows: seq<WarehouseRow>) returns (result: seq<WarehouseTransaction>)
    ensures result == Mapped(rows)
  {
    result := [];
    var i := 0;
    while i < |rows|
      invariant 0 <= i <= |rows|
      invariant result == Mapped(rows[..i])
    {
      MapSeqStep(Record, rows, i);
      result := result + [Record(rows[i])];
      i := i + 1;
    }
    assert rows[..i] == rows;
  }

  /** The intended mapping agrees with the written one wherever that one succeeds. */
  lemma MappedExtendsAsWritten(rows: seq<WarehouseRow>)
    ensures MappedAsWritten(rows).Some? ==> MappedAsWritten(rows).value == Mapped(rows)
  {
  }

  /** The ids `insert_transaction` generates are "txn_" and twelve hex digits. One with a
      letter in it is enough for the written mapping to return nothing at all, while the
      intended one lists every row. */
  lemma GeneratedIdEmptiesListing(rows: seq<WarehouseRow>, i: nat)
    requires i < |rows| && rows[i].id == TextId("txn_a1b2c3d4e5f6")
    ensures MappedAsWritten(rows).None?
    ensures |Mapped(rows)| == |rows| && Mapped(rows)[i].id == 0
  {
    GeneratedIdDoesNotParse();
  }

  lemma GeneratedIdDoesNotParse()
    ensures IdAsWritten(TextId("txn_a1b2c3d4e5f6")).None?
  {
    var text := "txn_a1b2c3d4e5f6";
    assert text[3] == '_';
    GeneratedIdLastPiece();
    HexPieceDoesNotParse();
  }

  lemma GeneratedIdLastPiece()
    ensures LastPiece("txn_a1b2c3d4e5f6") == "a1b2c3d4e5f6"
  {
    var q := "a1b2c3d4e5f6";
    assert "txn_a1b2c3d4e5f6" == "txn" + "_" + q;
    assert '_' !in q;
    LastPieceAfterSeparator("txn", q);
  }

  lemma HexPieceDoesNotParse()
    ensures ParseInt("a1b2c3d4e5f6").None?
  {
    var q := "a1b2c3d4e5f6";
    StripLeftNoop(q);
    StripRightNoop(q);
    assert !AllDigits(q) by {
      assert !IsDigit(q[0]);
    }
  }

  /** `get_transactions` reads the spreadsheet table first and the transactions table only
      when the first is empty. */
  function SelectRows(sheetRows: seq<WarehouseRow>, tableRows: seq<WarehouseRow>): (r: seq<WarehouseRow>)
    ensures r == [] <==> sheetRows == [] && tableRows == []
    ensures sheetRows != [] ==> r == sheetRows
  {
    if sheetRows != [] then sheetRows else tableRows
  }

  // ---- the service ---------------------------------------------------------------------

  /** `SnowflakeService`: whether a connection has been made. */
  class SnowflakeService {
    var connected: bool

    constructor ()
      ensures !connected
    {
      connected := false;
    }

    /** `connect`, with whether the driver accepted the credentials as a parameter: a failed
        attempt leaves the connection as it was. */
    method Connect(accepted: bool) returns (ok: bool)
      modifies this
      ensures ok == accepted
      ensures connected == (old(connected) || accepted)
    {
      if accepted {
        connected := true;
      }
      ok := accepted;
    }

    /** `get_transactions` as written: nothing without a connection; otherwise the selected
        rows mapped, or nothing at all when an id does not parse. */
    method GetTransactionsAsWritten(sheetRows: seq<WarehouseRow>, tableRows: seq<WarehouseRow>)
      returns (result: seq<WarehouseTransaction>)
      ensures !connected ==> result == []
      ensures connected ==> (result ==
        var rows := SelectRows(sheetRows, tableRows);
        if MappedAsWritten(rows).Some? then MappedAsWritten(rows).value else [])
    {
      if !connected {
        return [];
      }
      var rowData := SelectRows(sheetRows, tableRows);
      result := MapRowsAsWritten(rowData);
    }

    /** `get_transactions` with the intended ids: with a connection, one record per selected row. */
    method GetTransactions(sheetRows: seq<WarehouseRow>, tableRows: seq<WarehouseRow>)
      returns (result: seq<WarehouseTransaction>)
      ensures !connected ==> result == []
      ensures connected ==> result == Mapped(SelectRows(sheetRows, tableRows))
      ensures connected ==> |result| == |SelectRows(sheetRows, tableRows)|
    {
      if !connected {
        return [];
      }
      var rowData := SelectRows(sheetRows, tableRows);
      result := MapRows(rowData);
    }

    /** `get_chat_context`: without a connection the analysis is empty, and so is the context. */
    method GetChatContext(pymeId: string, analysis: Option<seq<MonthSummary>>) returns (context: Option<ChatContext>)
      ensures !connected ==> context.None?
      ensures connected ==> context == ChatContextOf(pymeId, analysis)
    {
      if !connected {
        return None;
      }
      context := ChatContextOf(pymeId, analysis);
    }
  }
}
