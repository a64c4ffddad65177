/**
 * The risk-tier table, the explainability summary built from an NLP
 * prediction and the intervention plan built from an ensemble decision
 * (src/riskUtils.js).
 */
module RiskUtils {
  import opened JsValues
  import opened ModelOutputs

  // ------------------------------------------------------------------
  // Risk tiers
  // ------------------------------------------------------------------

  /** One entry of `RISK_TIERS`. */
  datatype TierInfo = TierInfo(text: string, color: string, summary: string)

  /** The tiers `RISK_TIERS` has an entry for. */
  predicate KnownTier(tier: int)
  {
    tier == 0 || tier == 1 || tier == 2
  }

  const LowTier := TierInfo("Low", "var(--color-success)", "Stable signals. Keep reinforcing healthy routines.")
  const ModerateTier := TierInfo("Moderate", "var(--color-warning)", "Rising strain detected. Early intervention is recommended.")
  const CriticalTier := TierInfo("Critical", "var(--color-danger)", "High-risk pattern detected. Escalate immediately.")

  /** `RISK_TIERS[tier]`, or nothing for a tier without an entry. */
  function RiskTierEntry(tier: int): (r: Option<TierInfo>)
    ensures r.Some? <==> KnownTier(tier)
  {
    if tier == 0 then Some(LowTier)
    else if tier == 1 then Some(ModerateTier)
    else if tier == 2 then Some(CriticalTier)
    else None
  }

  /** `RISK_TIERS[tier] || RISK_TIERS[0]`. */
  function RiskInfo(tier: int): (r: TierInfo)
    ensures KnownTier(tier) ==> Some(r) == RiskTierEntry(tier)
    ensures !KnownTier(tier) ==> Some(r) == RiskTierEntry(0)
  {
    match RiskTierEntry(tier)
    case Some(info) => info
    case None => RiskTierEntry(0).value
  }

  /** The three known tiers carry three different labels, so the label identifies the tier. */
  lemma {:induction false} RiskInfoLabelsDistinct(a: int, b: int)
    requires KnownTier(a) && KnownTier(b) && a != b
    ensures RiskInfo(a).text != RiskInfo(b).text
  {
    assert RiskInfo(0).text == "Low";
    assert RiskInfo(1).text == "Moderate";
    assert RiskInfo(2).text == "Critical";
    assert "Low"[0] != "Moderate"[0] && "Moderate"[0] != "Critical"[0] && "Low"[0] != "Critical"[0];
  }

  /** One entry of `CRISIS_RESOURCES`. */
  datatype CrisisResource = CrisisResource(text: string, value: string, detail: string, href: string)

  const CrisisResources: seq<CrisisResource> := [
    CrisisResource("US 988 Lifeline", "Call or text 988", "24/7 confidential support", "https://988lifeline.org/"),
    CrisisResource("Emergency", "Call 911", "Immediate danger or medical emergency", "tel:911"),
    CrisisResource("Find Local Care", "SAMHSA treatment locator", "Mental health and substance-use services", "https://findtreatment.gov/")]

  // ------------------------------------------------------------------
  // Explainability summary
  // ------------------------------------------------------------------

  /** One `{name, effect}` row of the explainability summary. */
  datatype ExplainItem = ExplainItem(name: string, effect: real)

  /** The most rows the summary shows (`slice(0, 5)`). */
  const MaxExplainItems := 5

  /** `f.feature || `Signal ${idx + 1}``: an absent or empty name falls back to the position. */
  function FeatureName(f: Feature, idx: nat): (name: string)
    ensures |name| > 0
    ensures f.feature.Some? && f.feature.value != "" ==> name == f.feature.value
    ensures f.feature.None? || f.feature.value == "" ==> name == "Signal " + NatToString(idx + 1)
  {
    if f.feature.Some? && f.feature.value != "" then f.feature.value else "Signal " + NatToString(idx + 1)
  }

  /** The placeholder impact of the feature at `idx`: 0.15 + 0.03 * idx. */
  function DefaultImpact(idx: nat): (e: real)
    ensures e == (15 + 3 * idx) as real / 100.0
  {
    0.15 + idx as real * 0.03
  }

  /** `typeof f.impact === "number" ? f.impact : 0.15 + idx * 0.03`. */
  function FeatureEffect(f: Feature, idx: nat): real
  {
    match f.impact
    case Some(v) => v
    case None => DefaultImpact(idx)
  }

  /** The five metric keys of the fallback summary, in the order the summary lists them. */
  const FallbackKeys: seq<string> := ["sleep.offset.wd.sd", "NHR.0204.cv", "AC.st.30m.wd", "ICV.hr.wd", "peaks.st.wd"]

  /** `KEY_METRIC_LABELS[key]`. */
  function MetricLabel(key: string): Option<string>
  {
    if key == "sleep.offset.wd.sd" then Some("Sleep timing variability")
    else if key == "ICV.hr.wd" then Some("Heart-rate rhythm instability")
    else if key == "NHR.0204.cv" then Some("Nocturnal HR variability")
    else if key == "AC.st.30m.wd" then Some("Daily activity consistency")
    else if key == "peaks.st.wd" then Some("Activity peak irregularity")
    else None
  }

  /** `KEY_METRIC_LABELS[key] || key`. */
  function MetricName(key: string): string
  {
    match MetricLabel(key)
    case Some(l) => if l != "" then l else key
    case None => key
  }

  /**
   * The effect of fallback row `k` for seed `t`, in hundredths:
   * 42 + 6t, 36 + 5t, 30 + 5t, 25 + 4t and 20 + 3t. With an integer seed
   * each value has at most two decimals, so `Number(x.toFixed(2))` is exact.
   */
  function FallbackEffect(k: nat, t: int): real
    requires k < 5
  {
    if k == 0 then 0.42 + t as real * 0.06
    else if k == 1 then 0.36 + t as real * 0.05
    else if k == 2 then 0.3 + t as real * 0.05
    else if k == 3 then 0.25 + t as real * 0.04
    else 0.2 + t as real * 0.03
  }

  /** `prediction.risk_tier || 0`: an absent or zero tier reads as 0. */
  function Seed(p: NlpPrediction): int
  {
    match p.riskTier
    case Some(t) => t
    case None => 0
  }

  /** `Array.isArray(top_features) && top_features.length > 0`. */
  predicate HasFeatures(p: NlpPrediction)
  {
    p.topFeatures.Some? && |p.topFeatures.value| > 0
  }

  /**
   * `buildExplainabilitySummary`: nothing without a prediction; the first
   * (at most five) features in their order when there are any; otherwise
   * the five fixed metrics with effects grown by the passive risk tier.
   */
  function BuildExplainabilitySummary(prediction: Option<NlpPrediction>): (r: seq<ExplainItem>)
    ensures |r| <= MaxExplainItems
    ensures prediction.None? ==> r == []
    ensures prediction.Some? && HasFeatures(prediction.value) ==>
      var fs := prediction.value.topFeatures.value;
      && |r| == Min(MaxExplainItems, |fs|)
      && forall i :: 0 <= i < |r| ==> r[i] == ExplainItem(FeatureName(fs[i], i), FeatureEffect(fs[i], i))
    ensures prediction.Some? && !HasFeatures(prediction.value) ==>
      && |r| == 5
      && forall k :: 0 <= k < 5 ==>
           r[k] == ExplainItem(MetricName(FallbackKeys[k]), FallbackEffect(k, Seed(prediction.value)))
  {
    match prediction
    case None => []
    case Some(p) =>
      if HasFeatures(p) then
        var fs := p.topFeatures.value;
        seq(Min(MaxExplainItems, |fs|), i requires 0 <= i < Min(MaxExplainItems, |fs|) =>
          ExplainItem(FeatureName(fs[i], i), FeatureEffect(fs[i], i)))
      else
        seq(5, k requires 0 <= k < 5 => ExplainItem(MetricName(FallbackKeys[k]), FallbackEffect(k, Seed(p))))
  }

  /** Every row of the summary has a non-empty name, whatever the features' names are. */
  lemma {:induction false} ExplainabilityNamesNonEmpty(prediction: Option<NlpPrediction>)
    ensures forall i :: 0 <= i < |BuildExplainabilitySummary(prediction)| ==>
      BuildExplainabilitySummary(prediction)[i].name != ""
  {
    var r := BuildExplainabilitySummary(prediction);
    if prediction.Some? && !HasFeatures(prediction.value) {
      forall k | 0 <= k < |r| ensures r[k].name != "" {
        assert r[k].name == MetricName(FallbackKeys[k]);
      }
    }
  }

  /** The fallback rows show the five metric labels, in the fixed order. */
  lemma {:induction false} FallbackNames(p: NlpPrediction)
    requires !HasFeatures(p)
    ensures var r := BuildExplainabilitySummary(Some(p));
      && r[0].name == "Sleep timing variability" && r[1].name == "Nocturnal HR variability"
      && r[2].name == "Daily activity consistency" && r[3].name == "Heart-rate rhythm instability"
      && r[4].name == "Activity peak irregularity"
  {
    var r := BuildExplainabilitySummary(Some(p));
    assert r[0].name == MetricName(FallbackKeys[0]);
    assert r[1].name == MetricName(FallbackKeys[1]);
    assert r[2].name == MetricName(FallbackKeys[2]);
    assert r[3].name == MetricName(FallbackKeys[3]);
    assert r[4].name == MetricName(FallbackKeys[4]);
  }

  /**
   * The fallback effects in hundredths are 42+6t, 36+5t, 30+5t, 25+4t and
   * 20+3t, and for a non-negative seed they are strictly decreasing.
   */
  lemma {:induction false} FallbackEffects(p: NlpPrediction)
    requires !HasFeatures(p)
    ensures var r := BuildExplainabilitySummary(Some(p)); var t := Seed(p) as real;
      && r[0].effect * 100.0 == 42.0 + 6.0 * t && r[1].effect * 100.0 == 36.0 + 5.0 * t
      && r[2].effect * 100.0 == 30.0 + 5.0 * t && r[3].effect * 100.0 == 25.0 + 4.0 * t
      && r[4].effect * 100.0 == 20.0 + 3.0 * t
    ensures Seed(p) >= 0 ==> forall k :: 0 <= k < 4 ==>
      BuildExplainabilitySummary(Some(p))[k].effect > BuildExplainabilitySummary(Some(p))[k + 1].effect
  {
    var r := BuildExplainabilitySummary(Some(p));
    var t := Seed(p);
    assert r[0].effect == FallbackEffect(0, t);
    assert r[1].effect == FallbackEffect(1, t);
    assert r[2].effect == FallbackEffect(2, t);
    assert r[3].effect == FallbackEffect(3, t);
    assert r[4].effect == FallbackEffect(4, t);
  }

  /** A feature without a numeric impact at position `i` gets 15 + 3i hundredths. */
  lemma {:induction false} MissingImpactDefault(p: NlpPrediction, i: nat)
    requires HasFeatures(p) && i < Min(MaxExplainItems, |p.topFeatures.value|)
    requires p.topFeatures.value[i].impact.None?
    ensures BuildExplainabilitySummary(Some(p))[i].effect * 100.0 == (15 + 3 * i) as real
  {
    var r := BuildExplainabilitySummary(Some(p));
    assert r[i].effect == DefaultImpact(i);
  }

  // ------------------------------------------------------------------
  // Intervention plan
  // ------------------------------------------------------------------

  /** The object `buildInterventionPlan` returns. */
  datatype InterventionPlan = InterventionPlan(
    tier: int, text: string, color: string, summary: string, reason: string,
    interventions: seq<string>, predictedClass: string, confidence: real, phqSeverity: string)

  const LowInterventions: seq<string> := [
    "Celebrate one positive routine you maintained this week.",
    "Keep sleep and wake windows within 30 minutes.",
    "Schedule one social check-in today."]
  const ModerateInterventions: seq<string> := [
    "Take a 10-minute walk or sunlight break within the next hour.",
    "Reduce late-night screen time tonight by 30 minutes.",
    "Prompt a trusted contact to check in within 24 hours."]
  const CriticalInterventions: seq<string> := [
    "Immediately surface emergency resources and hotlines.",
    "Notify designated trusted contact(s) with user consent.",
    "Recommend professional intervention and same-day support."]

  /** `interventions[tier]`, or nothing for a tier without a list. */
  function InterventionEntry(tier: int): (r: Option<seq<string>>)
    ensures r.Some? <==> KnownTier(tier)
    ensures r.Some? ==> |r.value| == 3
  {
    if tier == 0 then Some(LowInterventions)
    else if tier == 1 then Some(ModerateInterventions)
    else if tier == 2 then Some(CriticalInterventions)
    else None
  }

  /** `interventions[tier] || interventions[0]`. */
  function Interventions(tier: int): (r: seq<string>)
    ensures |r| == 3
    ensures KnownTier(tier) ==> Some(r) == InterventionEntry(tier)
    ensures !KnownTier(tier) ==> Some(r) == InterventionEntry(0)
  {
    match InterventionEntry(tier)
    case Some(list) => list
    case None => InterventionEntry(0).value
  }

  /** `prediction?.predicted_class || "unknown"`. */
  function PredictedClassOr(prediction: Option<NlpPrediction>): (c: string)
    ensures c != ""
    ensures prediction.Some? && prediction.value.predictedClass.Some? && prediction.value.predictedClass.value != "" ==>
      c == prediction.value.predictedClass.value
  {
    if prediction.Some? && prediction.value.predictedClass.Some? && prediction.value.predictedClass.value != "" then
      prediction.value.predictedClass.value
    else "unknown"
  }

  /** `prediction?.confidence || 0`. */
  function ConfidenceOr(prediction: Option<NlpPrediction>): (c: real)
    ensures prediction.Some? && prediction.value.confidence.Some? ==> c == prediction.value.confidence.value
    ensures prediction.None? || prediction.value.confidence.None? ==> c == 0.0
  {
    if prediction.Some? && prediction.value.confidence.Some? then prediction.value.confidence.value else 0.0
  }

  /** `phqPrediction?.severity || "Not available"`: only an object payload has a severity. */
  function SeverityOr(phq: Option<PhqPayload>): (s: string)
    ensures s != ""
    ensures phq.Some? && phq.value.PhqRecord? && phq.value.severity.Some? && phq.value.severity.value != "" ==>
      s == phq.value.severity.value
  {
    if phq.Some? && phq.value.PhqRecord? && phq.value.severity.Some? && phq.value.severity.value != "" then
      phq.value.severity.value
    else "Not available"
  }

  /**
   * `buildInterventionPlan`: nothing without a decision; otherwise the
   * decision's tier and reason, the tier's table entries (tier 0's for
   * an unknown tier) and the prediction details with their defaults.
   */
  function BuildInterventionPlan(decision: Option<EnsembleDecision>, prediction: Option<NlpPrediction>,
                                 phq: Option<PhqPayload>): (r: Option<InterventionPlan>)
    ensures r.None? <==> decision.None?
    ensures r.Some? ==>
      && r.value.tier == decision.value.tier && r.value.reason == decision.value.reason
      && r.value.text == RiskInfo(decision.value.tier).text
      && r.value.color == RiskInfo(decision.value.tier).color
      && r.value.summary == RiskInfo(decision.value.tier).summary
      && r.value.interventions == Interventions(decision.value.tier)
      && r.value.predictedClass == PredictedClassOr(prediction)
      && r.value.confidence == ConfidenceOr(prediction)
      && r.value.phqSeverity == SeverityOr(phq)
  {
    match decision
    case None => None
    case Some(d) =>
      var info := RiskInfo(d.tier);
      Some(InterventionPlan(d.tier, info.text, info.color, info.summary, d.reason, Interventions(d.tier),
        PredictedClassOr(prediction), ConfidenceOr(prediction), SeverityOr(phq)))
  }

  /**
   * A plan for a tier without a table entry reads exactly like a tier-0 plan
   * apart from the tier and reason it copies.
   */
  lemma {:induction false} UnknownTierFallsBack(d: EnsembleDecision, prediction: Option<NlpPrediction>, phq: Option<PhqPayload>)
    requires !KnownTier(d.tier)
    ensures var r := BuildInterventionPlan(Some(d), prediction, phq).value;
      var z := BuildInterventionPlan(Some(EnsembleDecision(0, d.reason)), prediction, phq).value;
      r == z.(tier := d.tier)
  {
  }

  /** A known tier's plan shows that tier's label, so plans of different known tiers read differently. */
  lemma {:induction false} PlanLabelIdentifiesTier(a: EnsembleDecision, b: EnsembleDecision,
                                                   prediction: Option<NlpPrediction>, phq: Option<PhqPayload>)
    requires KnownTier(a.tier) && KnownTier(b.tier) && a.tier != b.tier
    ensures BuildInterventionPlan(Some(a), prediction, phq).value.text
         != BuildInterventionPlan(Some(b), prediction, phq).value.text
  {
    RiskInfoLabelsDistinct(a.tier, b.tier);
  }
}
