/**
 * The values the hosted models return and the decision derived from them,
 * shared by the risk ensemble (src/GlobalStateProvider.jsx), the plan and
 * explainability builders (src/riskUtils.js) and the pages that read them.
 */
module ModelOutputs {
  import opened JsValues

  /** One entry of `top_features`: both fields may be missing. */
  datatype Feature = Feature(feature: Option<string>, impact: Option<real>)

  /**
   * The NLP model's prediction: `predicted_class`, `confidence`, the passive-signal
   * `risk_tier` and `top_features`, each of which may be absent.
   */
  datatype NlpPrediction = NlpPrediction(
    predictedClass: Option<string>,
    confidence: Option<real>,
    riskTier: Option<int>,
    topFeatures: Option<seq<Feature>>)

  /**
   * The PHQ model's output, which arrives in one of several shapes: a bare
   * number, a numeric string, an object with optional `score`, `prediction`
   * and `severity` fields, or some other value (a boolean, say). `score` and
   * `prediction` may also be present as `null`, which the provider and the
   * dashboard read differently.
   */
  datatype PhqPayload =
    | PhqNumber(n: Number)
    | PhqText(text: string)
    | PhqRecord(score: Field<Number>, prediction: Field<Number>, severity: Option<string>)
    | PhqOther

  /** The ensemble's `{tier, reason}`. */
  datatype EnsembleDecision = EnsembleDecision(tier: int, reason: string)
}
