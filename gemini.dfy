/** The text heuristics of the language-model client: which lines of a reply count as
    recommendations, how confident a reply is, which charts a question asks for, and the canned
    reply given when the model cannot be reached. The model itself is a parameter: its reply
    text, or None where the call raises. */
module Gemini {
  import opened Wrappers
  import opened Text
  import opened FinancialModels

  // ---------------------------------------------------------------------------------------
  // Recommendation lines
  // ---------------------------------------------------------------------------------------

  /** The prefixes that mark a bullet or numbered line (`line.startswith((...))`). */
  const BulletPrefixes: seq<string> := ["•", "-", "*", "1.", "2.", "3."]

  /** The advice verbs searched for in the lower-cased line. */
  const AdviceWords: seq<string> := ["recomiendo", "sugiero", "deberías"]

  const MaxRecommendations: nat := 5

  /** A stripped line is kept when it starts like a list item or contains an advice verb. */
  predicate IsRecommendation(line: string)
  {
    StartsWithAny(line, BulletPrefixes) || ContainsAny(Lower(line), AdviceWords)
  }

  /** What one line contributes: itself stripped, if it is a recommendation. */
  function Picked(line: string): seq<string>
  {
    var stripped := Strip(line);
    if IsRecommendation(stripped) then [stripped] else []
  }

  /** The contributions of the elements of `s`, one after the other. */
  function ConcatMap<T, U>(f: T -> seq<U>, s: seq<T>): seq<U>
  {
    if s == [] then [] else ConcatMap(f, s[..|s| - 1]) + f(s[|s| - 1])
  }

  lemma {:induction false} ConcatMapMembers<T, U>(f: T -> seq<U>, s: seq<T>)
    ensures forall x :: x in ConcatMap(f, s) ==> exists i :: 0 <= i < |s| && x in f(s[i])
    ensures forall i, x :: 0 <= i < |s| && x in f(s[i]) ==> x in ConcatMap(f, s)
  {
    if s != [] {
      var front := s[..|s| - 1];
      ConcatMapMembers(f, front);
      forall x | x in ConcatMap(f, s)
        ensures exists i :: 0 <= i < |s| && x in f(s[i])
      {
        if x in ConcatMap(f, front) {
          var i :| 0 <= i < |front| && x in f(front[i]);
          assert s[i] == front[i];
        } else {
          assert x in f(s[|s| - 1]);
        }
      }
      forall i, x | 0 <= i < |s| && x in f(s[i])
        ensures x in ConcatMap(f, s)
      {
        if i < |front| {
          assert front[i] == s[i];
        }
      }
    }
  }

  lemma {:induction false} ConcatMapAppend<T, U>(f: T -> seq<U>, a: seq<T>, b: seq<T>)
    ensures ConcatMap(f, a + b) == ConcatMap(f, a) + ConcatMap(f, b)
  {
    if b == [] {
      assert a + b == a;
    } else {
      var front := b[..|b| - 1];
      assert (a + b)[..|a + b| - 1] == a + front;
      assert (a + b)[|a + b| - 1] == b[|b| - 1];
      ConcatMapAppend(f, a, front);
    }
  }

  /** Every recommendation line of `lines`, stripped, in text order. */
  function RecommendationLines(lines: seq<string>): seq<string>
  {
    ConcatMap(Picked, lines)
  }

  /** The recommendations `_extract_recommendations` returns for a reply. */
  function RecommendationsOf(text: string): seq<string>
  {
    Take(RecommendationLines(Split(text, '\n')), MaxRecommendations)
  }

  /** `_extract_recommendations`: scan the lines, keep the recommendation lines, cut at five. */
  method ExtractRecommendations(text: string) returns (recommendations: seq<string>)
    ensures recommendations == RecommendationsOf(text)
  {
    var lines := Split(text, '\n');
    var found: seq<string> := [];
    for i := 0 to |lines|
      invariant found == RecommendationLines(lines[..i])
    {
      var line := Strip(lines[i]);
      if IsRecommendation(line) {
        found := found + [line];
      }
      assert found == RecommendationLines(lines[..i]) + Picked(lines[i]);
      assert lines[..i + 1][..i] == lines[..i];
    }
    assert lines[..|lines|] == lines;
    recommendations := Take(found, MaxRecommendations);
  }

  /** Scanning two blocks of lines one after the other finds the first block's
      recommendations followed by the second's: the scan keeps text order. */
  lemma RecommendationLinesAppend(a: seq<string>, b: seq<string>)
    ensures RecommendationLines(a + b) == RecommendationLines(a) + RecommendationLines(b)
  {
    ConcatMapAppend(Picked, a, b);
  }

  /** What one line contributes is its stripped form, exactly when that is a recommendation. */
  lemma PickedMeaning(line: string)
    ensures forall x :: x in Picked(line) <==> x == Strip(line) && IsRecommendation(Strip(line))
  {
    PickedIs(line, Strip(line));
  }

  /** What one line contributes is already stripped. */
  lemma PickedStripped(line: string)
    ensures forall x :: x in Picked(line) ==> Strip(x) == x
  {
    var stripped := Strip(line);
    PickedIs(line, stripped);
    StripIdempotent(line);
    forall x | x in Picked(line) ensures Strip(x) == x {
      assert x == stripped;
    }
  }

  lemma PickedIs(line: string, stripped: string)
    requires stripped == Strip(line)
    ensures Picked(line) == if IsRecommendation(stripped) then [stripped] else []
  {
  }

  /** Every found line is the stripped form of an input line, is a recommendation and is
      already stripped; every recommendation line of the input is found. */
  lemma RecommendationLinesExact(lines: seq<string>)
    ensures forall x :: x in RecommendationLines(lines) <==>
      exists i :: 0 <= i < |lines| && x == Strip(lines[i]) && IsRecommendation(x)
    ensures forall x :: x in RecommendationLines(lines) ==> Strip(x) == x
  {
    ConcatMapMembers(Picked, lines);
    forall i | 0 <= i < |lines| {
      PickedMeaning(lines[i]);
    }
    forall i | 0 <= i < |lines| {
      PickedStripped(lines[i]);
    }
  }

  /** At most five recommendations come back; they are the first recommendation lines of the
      reply in text order (all of them when there are no more than five), each a
      recommendation and already stripped. */
  lemma ExtractedRecommendations(text: string)
    ensures |RecommendationsOf(text)| <= MaxRecommendations
    ensures var all := RecommendationLines(Split(text, '\n'));
      && RecommendationsOf(text) == all[..|RecommendationsOf(text)|]
      && (|all| <= MaxRecommendations ==> RecommendationsOf(text) == all)
    ensures forall x :: x in RecommendationsOf(text) ==> IsRecommendation(x) && Strip(x) == x
  {
    var all := RecommendationLines(Split(text, '\n'));
    var r := RecommendationsOf(text);
    RecommendationLinesExact(Split(text, '\n'));
    forall x | x in r ensures x in all {
      var k :| 0 <= k < |r| && r[k] == x;
      assert all[k] == x;
    }
  }

  // ---------------------------------------------------------------------------------------
  // Confidence
  // ---------------------------------------------------------------------------------------

  const BaseConfidence: real := 0.8

  /** Markers of a specific reply: money, percentages, periods, figures. */
  const SpecificityMarkers: seq<string> := ["$", "%", "meses", "años", "número"]

  /** Markers of a hedged reply. */
  const HedgePhrases: seq<string> := ["no estoy seguro", "posiblemente", "tal vez", "podría ser"]

  /** `min(max(x, lo), hi)`. */
  function Clamp(x: real, lo: real, hi: real): real
  {
    var low := if x > lo then x else lo;
    if low < hi then low else hi
  }

  function ConfidenceOf(response: string): (c: real)
    ensures 0.1 <= c <= 1.0
  {
    var specific := if ContainsAny(Lower(response), SpecificityMarkers) then 0.1 else 0.0;
    var hedged := if ContainsAny(Lower(response), HedgePhrases) then 0.2 else 0.0;
    Clamp(BaseConfidence + specific - hedged, 0.1, 1.0)
  }

  /** `_calculate_confidence`: start from 0.8, adjust for specificity and hedging, clamp. The
      question is accepted and ignored, as in the service. */
  method CalculateConfidence(response: string, question: string) returns (confidence: real)
    ensures confidence == ConfidenceOf(response)
    ensures 0.1 <= confidence <= 1.0
  {
    var lowered := Lower(response);
    confidence := BaseConfidence;
    if ContainsAny(lowered, SpecificityMarkers) {
      confidence := confidence + 0.1;
    }
    if ContainsAny(lowered, HedgePhrases) {
      confidence := confidence - 0.2;
    }
    confidence := Clamp(confidence, 0.1, 1.0);
  }

  /** The four possible confidences: a specific reply earns 0.1, a hedged one loses 0.2, and
      the clamp to [0.1, 1.0] never comes into play. */
  lemma ConfidenceTable(response: string)
    ensures var specific := ContainsAny(Lower(response), SpecificityMarkers);
      var hedged := ContainsAny(Lower(response), HedgePhrases);
      && (specific && !hedged ==> ConfidenceOf(response) == 0.9)
      && (!specific && !hedged ==> ConfidenceOf(response) == 0.8)
      && (specific && hedged ==> ConfidenceOf(response) == 0.7)
      && (!specific && hedged ==> ConfidenceOf(response) == 0.6)
    ensures 0.6 <= ConfidenceOf(response) <= 0.9
  {
  }

  // ---------------------------------------------------------------------------------------
  // Visualisations
  // ---------------------------------------------------------------------------------------

  /** The chart tags, in the order the service tests them. */
  const VisualizationTags: seq<string> :=
    ["cash_flow_chart", "expense_breakdown", "revenue_trend", "projection_chart"]

  /** The keywords that trigger each tag, position by position. */
  const VisualizationKeywords: seq<seq<string>> := [
    ["flujo", "cash", "dinero", "liquidez"],
    ["gastos", "expenses", "costos"],
    ["ingresos", "ventas", "revenue"],
    ["proyección", "futuro", "simulación"]
  ]

  /** A tag's position in `VisualizationTags`; 4 for a string that is no tag. */
  function TagRank(tag: string): (k: nat)
    ensures k <= 4
    ensures k < 4 ==> VisualizationTags[k] == tag
  {
    if tag == "cash_flow_chart" then 0
    else if tag == "expense_breakdown" then 1
    else if tag == "revenue_trend" then 2
    else if tag == "projection_chart" then 3
    else 4
  }

  lemma TagRanks()
    ensures forall k :: 0 <= k < 4 ==> TagRank(VisualizationTags[k]) == k
  {
  }

  /** The tags from position `k` on whose keywords occur in the lower-cased question: a
      table-driven reading of the four tests. */
  function VisualizationsFrom(loweredQuestion: string, k: nat): seq<string>
    requires k <= 4
    decreases 4 - k
  {
    if k == 4 then []
    else ((if ContainsAny(loweredQuestion, VisualizationKeywords[k]) then [VisualizationTags[k]] else [])
      + VisualizationsFrom(loweredQuestion, k + 1))
  }

  function VisualizationsOf(question: string): seq<string>
  {
    VisualizationsFrom(Lower(question), 0)
  }

  /** `_suggest_visualizations`: four independent keyword tests, each appending its tag. */
  method SuggestVisualizations(question: string) returns (visualizations: seq<string>)
    ensures visualizations == VisualizationsOf(question)
  {
    var lowered := Lower(question);
    visualizations := [];
    if ContainsAny(lowered, ["flujo", "cash", "dinero", "liquidez"]) {
      visualizations := visualizations + ["cash_flow_chart"];
    }
    if ContainsAny(lowered, ["gastos", "expenses", "costos"]) {
      visualizations := visualizations + ["expense_breakdown"];
    }
    if ContainsAny(lowered, ["ingresos", "ventas", "revenue"]) {
      visualizations := visualizations + ["revenue_trend"];
    }
    if ContainsAny(lowered, ["proyección", "futuro", "simulación"]) {
      visualizations := visualizations + ["projection_chart"];
    }
  }

  /** The tags from position k on come at most once each, in rising rank. */
  lemma {:induction false} VisualizationsFromRanked(q: string, k: nat)
    requires k <= 4
    ensures var v := VisualizationsFrom(q, k);
      && |v| <= 4 - k
      && (forall i :: 0 <= i < |v| ==> k <= TagRank(v[i]) < 4)
      && (forall i, j :: 0 <= i < j < |v| ==> TagRank(v[i]) < TagRank(v[j]))
    decreases 4 - k
  {
    if k < 4 {
      VisualizationsFromRanked(q, k + 1);
      TagRanks();
      assert TagRank(VisualizationTags[k]) == k;
    }
  }

  /** From position k on, each tag is present exactly when one of its keywords occurs. */
  lemma {:induction false} VisualizationsFromMembers(q: string, k: nat)
    requires k <= 4
    ensures var v := VisualizationsFrom(q, k);
      forall m :: k <= m < 4 ==> (VisualizationTags[m] in v <==> ContainsAny(q, VisualizationKeywords[m]))
    decreases 4 - k
  {
    if k < 4 {
      VisualizationsFromMembers(q, k + 1);
      VisualizationsFromRanked(q, k + 1);
      TagRanks();
      var rest := VisualizationsFrom(q, k + 1);
      assert VisualizationTags[k] !in rest by {
        forall i | 0 <= i < |rest| ensures rest[i] != VisualizationTags[k] {
          assert TagRank(rest[i]) != TagRank(VisualizationTags[k]);
        }
      }
      forall m | k + 1 <= m < 4 ensures VisualizationTags[k] != VisualizationTags[m] {
        assert TagRank(VisualizationTags[k]) != TagRank(VisualizationTags[m]);
      }
    }
  }

  /** Each tag appears exactly when one of its keywords occurs in the lower-cased question,
      at most once, and the tags keep the fixed order cash flow, expenses, revenue,
      projection. */
  lemma VisualizationsMeaning(question: string)
    ensures var v := VisualizationsOf(question);
      && |v| <= 4
      && (forall t :: t in v ==> t in VisualizationTags)
      && (forall m :: 0 <= m < 4 ==>
            (VisualizationTags[m] in v <==> ContainsAny(Lower(question), VisualizationKeywords[m])))
      && (forall i, j :: 0 <= i < j < |v| ==> TagRank(v[i]) < TagRank(v[j]))
  {
    VisualizationsFromRanked(Lower(question), 0);
    VisualizationsFromMembers(Lower(question), 0);
  }

  // ---------------------------------------------------------------------------------------
  // Offline reply
  // ---------------------------------------------------------------------------------------

  const HiringReply: string :=
    "Basándome en tu situación financiera actual, puedo ayudarte a evaluar la viabilidad de contratar un nuevo empleado.\n\n"
    + "**Análisis de Viabilidad:**\n"
    + "Para determinar si puedes contratar un nuevo empleado, necesito considerar varios factores:\n"
    + "- Tu flujo de caja actual y proyecciones futuras\n"
    + "- El costo total del empleado (salario + prestaciones + impuestos)\n"
    + "- El impacto en tus márgenes de ganancia\n"
    + "- La capacidad de generar ingresos adicionales\n\n"
    + "**Recomendaciones:**\n"
    + "1. Calcula el costo total del empleado (aproximadamente 1.3x el salario base)\n"
    + "2. Asegúrate de tener al menos 3 meses de gastos operativos en reserva\n"
    + "3. Considera contratar por proyecto o tiempo parcial inicialmente\n"
    + "4. Evalúa si el nuevo empleado puede generar ingresos adicionales\n\n"
    + "¿Te gustaría que analice un escenario específico con números concretos?"

  const HiringRecommendations: seq<string> := [
    "Calcular costo total del empleado (salario + prestaciones)",
    "Mantener reserva de 3 meses de gastos operativos",
    "Considerar contratación gradual o por proyecto",
    "Evaluar ROI del nuevo empleado"
  ]

  const InvestingReply: string :=
    "Para evaluar una inversión, necesito analizar varios aspectos de tu situación financiera.\n\n"
    + "**Factores a Considerar:**\n"
    + "- Impacto en el flujo de caja inmediato\n"
    + "- Retorno de inversión esperado\n"
    + "- Período de recuperación\n"
    + "- Alternativas de financiamiento\n\n"
    + "**Recomendaciones:**\n"
    + "1. Calcula el período de recuperación de la inversión\n"
    + "2. Evalúa diferentes opciones de financiamiento\n"
    + "3. Considera el impacto en tu liquidez operativa\n"
    + "4. Analiza escenarios optimistas y pesimistas\n\n"
    + "¿Podrías proporcionarme más detalles sobre la inversión que estás considerando?"

  const InvestingRecommendations: seq<string> := [
    "Calcular período de recuperación",
    "Evaluar opciones de financiamiento",
    "Analizar impacto en liquidez",
    "Considerar escenarios múltiples"
  ]

  const GeneralReply: string :=
    "Hola! Soy tu asesor financiero inteligente. Puedo ayudarte con:\n\n"
    + "• Análisis de viabilidad de contrataciones\n"
    + "• Evaluación de inversiones y compras\n"
    + "• Optimización de gastos\n"
    + "• Proyecciones financieras\n"
    + "• Análisis de flujo de caja\n\n"
    + "¿En qué aspecto específico de tus finanzas te gustaría que te ayude?"

  const GeneralRecommendations: seq<string> := [
    "Haz preguntas específicas sobre tu situación financiera",
    "Proporciona contexto sobre tus objetivos",
    "Menciona números concretos cuando sea posible"
  ]

  predicate AsksAboutHiring(question: string)
  {
    Contains(Lower(question), "contratar") || Contains(Lower(question), "empleado")
  }

  predicate AsksAboutInvesting(question: string)
  {
    Contains(Lower(question), "invertir") || Contains(Lower(question), "compra")
  }

  /** `_simulate_response`: a hiring question gets the hiring reply, otherwise an investment
      or purchase question gets the investment reply, and anything else the general menu.
      The confidence identifies the branch. */
  function SimulateResponse(question: string): (r: ChatResponse)
    ensures r.confidence == 0.8 <==> AsksAboutHiring(question)
    ensures r.confidence == 0.7 <==> !AsksAboutHiring(question) && AsksAboutInvesting(question)
    ensures r.confidence == 0.9 <==> !AsksAboutHiring(question) && !AsksAboutInvesting(question)
    ensures r.recommendations.Some?
    ensures r.visualizations.None? <==> r.confidence == 0.9
    ensures r.visualizations.Some? ==> forall t :: t in r.visualizations.value ==> t in VisualizationTags
  {
    if AsksAboutHiring(question) then
      ChatResponse(HiringReply, Some(HiringRecommendations),
                   Some(["cash_flow_chart", "projection_chart"]), 0.8)
    else if AsksAboutInvesting(question) then
      ChatResponse(InvestingReply, Some(InvestingRecommendations),
                   Some(["projection_chart", "cash_flow_chart"]), 0.7)
    else
      ChatResponse(GeneralReply, Some(GeneralRecommendations), None, 0.9)
  }

  /** A question that mentions both hiring and investing gets the hiring reply: the hiring
      test comes first. */
  lemma HiringTakesPrecedence(question: string)
    requires AsksAboutHiring(question) && AsksAboutInvesting(question)
    ensures SimulateResponse(question).response == HiringReply
    ensures SimulateResponse(question).recommendations == Some(HiringRecommendations)
  {
  }

  // ---------------------------------------------------------------------------------------
  // The service
  // ---------------------------------------------------------------------------------------

  /** The financial context the prompt shows: at most the last three cash-flow months, in
      order (`context['cash_flow'][-3:]`). */
  const ContextMonths: nat := 3

  function RecentCashFlow(cashFlow: seq<CashFlowData>): (r: seq<CashFlowData>)
    ensures |r| == if |cashFlow| < ContextMonths then |cashFlow| else ContextMonths
    ensures forall i :: 0 <= i < |r| ==> r[i] == cashFlow[|cashFlow| - |r| + i]
    ensures cashFlow != [] ==> r[|r| - 1] == cashFlow[|cashFlow| - 1]
  {
    TakeLast(cashFlow, ContextMonths)
  }

  /** The structured answer built from the model's reply text. */
  function ProcessedReply(text: string, question: string): ChatResponse
  {
    ChatResponse(text, Some(RecommendationsOf(text)), Some(VisualizationsOf(question)), ConfidenceOf(text))
  }

  /** The client. `isAvailable` records whether configuring the model succeeded. */
  class GeminiService {
    var isAvailable: bool

    /** `__init__`: `configured` is whether `genai.configure` and the model lookup went
        through (a missing key is replaced by a demo key, which does not change that). */
    constructor(configured: bool)
      ensures isAvailable == configured
    {
      isAvailable := configured;
    }

    /** `analyze_financial_question`. `reply` is what the model returned for the prompt, or
        None where the call raised; an unavailable model or a failed call falls back to the
        offline reply. */
    method AnalyzeFinancialQuestion(question: string, reply: Option<string>) returns (r: ChatResponse)
      ensures !isAvailable || reply.None? ==> r == SimulateResponse(question)
      ensures isAvailable && reply.Some? ==> r == ProcessedReply(reply.value, question)
    {
      if !isAvailable || reply.None? {
        return SimulateResponse(question);
      }
      var text := reply.value;
      var recommendations := ExtractRecommendations(text);
      var confidence := CalculateConfidence(text, question);
      var visualizations := SuggestVisualizations(question);
      r := ChatResponse(text, Some(recommendations), Some(visualizations), confidence);
    }
  }
}
