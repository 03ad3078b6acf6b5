/** The question suggestions the chat offers: a fixed list of eight, personalised by putting
    one question about the business's weakest point first. */
module Chat {
  import opened Wrappers
  import opened FinancialModels

  const MaxSuggestions: nat := 8

  const BaseSuggestions: seq<string> := [
    "¿Cómo puedo mejorar mi flujo de caja mensual?",
    "¿Qué estrategias recomienda para aumentar mis ingresos?",
    "¿Es momento de considerar un crédito para expansión?",
    "¿Cómo puedo optimizar mis gastos operativos?",
    "¿Qué productos de inversión de Banorte me recomienda?",
    "¿Cómo puedo preparar mi empresa para el crecimiento?",
    "¿Qué seguros empresariales necesito para proteger mi negocio?",
    "¿Cómo puedo mejorar mi margen de ganancia?"
  ]

  const NegativeFlowQuestion: string := "¿Cómo puedo mejorar mi flujo de caja negativo?"

  const MarginQuestion: string := "¿Cómo puedo aumentar mi margen de ganancia?"

  /** Below this profit margin (in percent) the margin question is put first. */
  const LowMargin: real := 10.0

  /** The question put in front of the base list, if any: a negative cash-flow trend wins over
      a low margin, and without metrics nothing is personalised. */
  function LeadQuestion(metrics: Option<FinancialMetrics>): (q: Option<string>)
    ensures q == Some(NegativeFlowQuestion) <==>
      metrics.Some? && metrics.value.cashFlowTrend == "negative"
    ensures q == Some(MarginQuestion) <==>
      metrics.Some? && metrics.value.cashFlowTrend != "negative" && metrics.value.profitMargin < LowMargin
    ensures q.None? <==>
      metrics.None? || (metrics.value.cashFlowTrend != "negative" && metrics.value.profitMargin >= LowMargin)
  {
    if metrics.None? then None
    else if metrics.value.cashFlowTrend == "negative" then Some(NegativeFlowQuestion)
    else if metrics.value.profitMargin < LowMargin then Some(MarginQuestion)
    else None
  }

  /** `get_suggestions`: build the base list, insert the lead question at the front when there
      is one, and keep the first eight. `metrics` is the data service's current metrics. */
  method GetSuggestions(metrics: Option<FinancialMetrics>) returns (suggestions: seq<string>)
    ensures |suggestions| == MaxSuggestions
    ensures LeadQuestion(metrics).None? ==> suggestions == BaseSuggestions
    ensures LeadQuestion(metrics).Some? ==>
      suggestions[0] == LeadQuestion(metrics).value && suggestions[1..] == BaseSuggestions[..MaxSuggestions - 1]
  {
    suggestions := BaseSuggestions;
    if metrics.Some? {
      if metrics.value.cashFlowTrend == "negative" {
        suggestions := [NegativeFlowQuestion] + suggestions;
      } else if metrics.value.profitMargin < LowMargin {
        suggestions := [MarginQuestion] + suggestions;
      }
    }
    suggestions := Take(suggestions, MaxSuggestions);
  }

  predicate Distinct(s: seq<string>)
  {
    forall i, j :: 0 <= i < j < |s| ==> s[i] != s[j]
  }

  /** The eight base suggestions are different questions. */
  lemma BaseSuggestionsDistinct()
    ensures Distinct(BaseSuggestions)
  {
    forall i, j | 0 <= i < j < |BaseSuggestions| ensures BaseSuggestions[i] != BaseSuggestions[j] {
      if i == 2 && j == 5 {
        assert BaseSuggestions[2][12] != BaseSuggestions[5][12];
      } else {
        assert |BaseSuggestions[i]| != |BaseSuggestions[j]|;
      }
    }
  }

  /** Whatever the metrics, the chat offers eight different questions: the lead question is
      never one of the base questions, and only the last base question gives way to it. */
  lemma SuggestionsDistinct(metrics: Option<FinancialMetrics>, suggestions: seq<string>)
    requires |suggestions| == MaxSuggestions
    requires LeadQuestion(metrics).None? ==> suggestions == BaseSuggestions
    requires LeadQuestion(metrics).Some? ==>
      suggestions[0] == LeadQuestion(metrics).value && suggestions[1..] == BaseSuggestions[..MaxSuggestions - 1]
    ensures Distinct(suggestions)
    ensures forall k :: 0 <= k < MaxSuggestions - 1 ==> BaseSuggestions[k] in suggestions
  {
    BaseSuggestionsDistinct();
    if LeadQuestion(metrics).Some? {
      var lead := LeadQuestion(metrics).value;
      forall k | 0 <= k < |BaseSuggestions| ensures lead != BaseSuggestions[k] {
        assert |lead| != |BaseSuggestions[k]|;
      }
      forall k | 0 <= k < MaxSuggestions - 1 ensures BaseSuggestions[k] in suggestions {
        assert suggestions[k + 1] == BaseSuggestions[k];
      }
      forall i, j | 0 <= i < j < |suggestions| ensures suggestions[i] != suggestions[j] {
        assert suggestions[j] == BaseSuggestions[j - 1];
        if i > 0 {
          assert suggestions[i] == BaseSuggestions[i - 1];
        }
      }
    }
  }
}
