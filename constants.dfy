/**
 * The name maps and the method list of `constants.py`. The provider objects,
 * credentials and folder paths defined there are configuration, not logic.
 */
module Constants {
  import opened Wrappers

  const ModeCertainty: string := "certainty"
  const ModeUncertainty: string := "uncertainty"

  const MethodBase: string := "base"
  const MethodSelfReflection: string := "self_reflection"
  const MethodMultiagentReflection: string := "multiagent_reflection"
  const MethodEnsemble: string := "ensemble"

  /** `METHODS`. */
  const Methods: seq<string> := [MethodBase, MethodSelfReflection, MethodMultiagentReflection, MethodEnsemble]

  const LlmGemini10Pro: string := "g10p"
  const LlmGemini15Pro: string := "g15p"

  const MetricTop1: string := "top_1"
  const MetricTop2: string := "top_2"
  const MetricTop3: string := "top_3"
  const MetricTopAny: string := "top_any"

  /** `get_llm_provider_name_from_constant`: the two Gemini constants are known; anything else raises `ValueError`. */
  function ProviderNameFromConstant(constant: string): (r: Result<string, string>)
    ensures r.Ok? <==> constant == LlmGemini10Pro || constant == LlmGemini15Pro
    ensures constant == LlmGemini10Pro ==> r == Ok("Google_gemini-1.0-pro")
    ensures constant == LlmGemini15Pro ==> r == Ok("Google_gemini-1.5-pro")
    ensures r.Err? ==> r.error == "ValueError"
  {
    if constant == LlmGemini10Pro then Ok("Google_gemini-1.0-pro")
    else if constant == LlmGemini15Pro then Ok("Google_gemini-1.5-pro")
    else Err("ValueError")
  }

  /** `pretty_metric_constant`: a display name for the four metrics; any other metric falls through to `None`. */
  function PrettyMetricConstant(metric: string): (r: Option<string>)
    ensures r.Some? <==> metric in {MetricTop1, MetricTop2, MetricTop3, MetricTopAny}
    ensures r.Some? ==> |r.value| >= 5 && r.value[..4] == "Top-"
    ensures metric == MetricTop1 ==> r == Some("Top-1")
    ensures metric == MetricTop2 ==> r == Some("Top-2")
    ensures metric == MetricTop3 ==> r == Some("Top-3")
    ensures metric == MetricTopAny ==> r == Some("Top-Any")
  {
    if metric == MetricTop1 then Some("Top-1")
    else if metric == MetricTop2 then Some("Top-2")
    else if metric == MetricTop3 then Some("Top-3")
    else if metric == MetricTopAny then Some("Top-Any")
    else None
  }

  /** Distinct constants get distinct provider names. */
  lemma ProviderNameInjective(a: string, b: string)
    requires ProviderNameFromConstant(a).Ok? && ProviderNameFromConstant(b).Ok?
    ensures ProviderNameFromConstant(a) == ProviderNameFromConstant(b) ==> a == b
  {
  }

  /** Distinct metrics get distinct display names. */
  lemma PrettyMetricInjective(a: string, b: string)
    requires PrettyMetricConstant(a).Some? && PrettyMetricConstant(b).Some?
    ensures PrettyMetricConstant(a) == PrettyMetricConstant(b) ==> a == b
  {
  }

  /** `METHODS` lists four distinct names. */
  lemma MethodsDistinct()
    ensures |Methods| == 4
    ensures forall i, j :: 0 <= i < j < |Methods| ==> Methods[i] != Methods[j]
  {
  }
}
