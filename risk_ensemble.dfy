/**
 * The risk ensemble of src/GlobalStateProvider.jsx: the PHQ-9 bands, the
 * NLP overlay, the coercion of the PHQ model's output and the effect that
 * recomputes the decision, plan, explainability and agent choice whenever
 * a prediction arrives.
 */
module RiskEnsemble {
  import opened JsValues
  import opened ModelOutputs
  import opened RiskUtils

  const Item9Reason := "Critical: Item 9 Safety Override"
  const SevereReason := "Critical: Severe Score"
  const ElevatedReason := "Moderate: Elevating Score"
  const LowReason := "Stable: Low Score"
  const SuicideReason := "Critical: NLP Suicide Detection"
  const PassiveReason := "Moderate: Passive Signals detect stress mismatch"

  /** The PHQ-9 cut points: a total of 20 or more is severe, 10 or more moderate. */
  const SevereCut: real := 20.0
  const ModerateCut: real := 10.0

  /**
   * `getPhqRisk`: a positive Item 9 overrides everything; otherwise the
   * total's band. A NaN total fails both comparisons and lands in tier 0.
   */
  function GetPhqRisk(score: Number, item9Positive: bool): (d: EnsembleDecision)
    ensures item9Positive ==> d == EnsembleDecision(2, Item9Reason)
    ensures !item9Positive ==>
      && (d.tier == 2 <==> AtLeast(score, SevereCut))
      && (d.tier == 1 <==> AtLeast(score, ModerateCut) && !AtLeast(score, SevereCut))
      && (d.tier == 0 <==> !AtLeast(score, ModerateCut))
  {
    if item9Positive then EnsembleDecision(2, Item9Reason)
    else if AtLeast(score, SevereCut) then EnsembleDecision(2, SevereReason)
    else if AtLeast(score, ModerateCut) then EnsembleDecision(1, ElevatedReason)
    else EnsembleDecision(0, LowReason)
  }

  /** A higher total never gives a lower PHQ tier. */
  lemma {:induction false} PhqRiskMonotone(a: real, b: real, item9Positive: bool)
    requires a <= b
    ensures GetPhqRisk(Finite(a), item9Positive).tier <= GetPhqRisk(Finite(b), item9Positive).tier
  {
  }

  /** The boundaries: 10 and 20 belong to the higher band, just below them to the lower one. */
  lemma {:induction false} PhqRiskBoundaries()
    ensures GetPhqRisk(Finite(20.0), false) == EnsembleDecision(2, SevereReason)
    ensures GetPhqRisk(Finite(19.999), false) == EnsembleDecision(1, ElevatedReason)
    ensures GetPhqRisk(Finite(10.0), false) == EnsembleDecision(1, ElevatedReason)
    ensures GetPhqRisk(Finite(9.999), false) == EnsembleDecision(0, LowReason)
    ensures GetPhqRisk(NaN, false) == EnsembleDecision(0, LowReason)
  {
  }

  /** `nlpResult && nlpResult.predicted_class === "suicide"`. */
  predicate SuicideClass(nlp: Option<NlpPrediction>)
  {
    nlp.Some? && nlp.value.predictedClass == Some("suicide")
  }

  /** `nlpResult && nlpResult.risk_tier === 1`. */
  predicate PassiveSignal(nlp: Option<NlpPrediction>)
  {
    nlp.Some? && nlp.value.riskTier == Some(1)
  }

  /**
   * `finalEnsembleDecision`: a "suicide" class forces tier 2; a passive
   * risk tier of 1 lifts a PHQ tier of 0 to 1; otherwise the PHQ result.
   */
  function FinalEnsembleDecision(score: Number, nlp: Option<NlpPrediction>, item9Positive: bool): (d: EnsembleDecision)
    ensures SuicideClass(nlp) ==> d == EnsembleDecision(2, SuicideReason)
    ensures !SuicideClass(nlp) && GetPhqRisk(score, item9Positive).tier == 0 && PassiveSignal(nlp) ==>
      d == EnsembleDecision(1, PassiveReason)
    ensures !SuicideClass(nlp) && !(GetPhqRisk(score, item9Positive).tier == 0 && PassiveSignal(nlp)) ==>
      d == GetPhqRisk(score, item9Positive)
  {
    var base := GetPhqRisk(score, item9Positive);
    if SuicideClass(nlp) then EnsembleDecision(2, SuicideReason)
    else if base.tier == 0 && PassiveSignal(nlp) then EnsembleDecision(1, PassiveReason)
    else base
  }

  /** The decision is a tier in {0, 1, 2} and never below the PHQ tier. */
  lemma {:induction false} EnsembleTierBounds(score: Number, nlp: Option<NlpPrediction>, item9Positive: bool)
    ensures KnownTier(FinalEnsembleDecision(score, nlp, item9Positive).tier)
    ensures FinalEnsembleDecision(score, nlp, item9Positive).tier >= GetPhqRisk(score, item9Positive).tier
  {
    var base := GetPhqRisk(score, item9Positive);
    assert KnownTier(base.tier);
  }

  /** Without an NLP result the decision is exactly the PHQ result. */
  lemma {:induction false} EnsembleWithoutNlp(score: Number, item9Positive: bool)
    ensures FinalEnsembleDecision(score, None, item9Positive) == GetPhqRisk(score, item9Positive)
  {
  }

  /** The NLP "suicide" class wins even over a positive Item 9. */
  lemma {:induction false} SuicideOverridesItem9(score: Number, nlp: NlpPrediction)
    requires nlp.predictedClass == Some("suicide")
    ensures FinalEnsembleDecision(score, Some(nlp), true) == EnsembleDecision(2, SuicideReason)
  {
  }

  /** Passive signals at tier 2 (or any tier but 1) do not lift a low PHQ result. */
  lemma {:induction false} PassiveTierTwoIgnored(score: Number, nlp: NlpPrediction)
    requires nlp.predictedClass != Some("suicide") && nlp.riskTier != Some(1)
    requires GetPhqRisk(score, false).tier == 0
    ensures FinalEnsembleDecision(score, Some(nlp), false) == EnsembleDecision(0, LowReason)
  {
  }

  // ------------------------------------------------------------------
  // Coercion of the PHQ model's output
  // ------------------------------------------------------------------

  /**
   * The score the effect reads from the PHQ output: a number as it is,
   * else a `score` that is not `undefined`, else a `prediction` that is not
   * `undefined`, else the `parseFloat` of a string, else 0. A `null` taken
   * this way reaches `getPhqRisk`, whose comparisons read it as 0, so it is
   * modelled as 0. `parseFloat` is a parameter.
   */
  function CoercePhqScore(phq: PhqPayload, parseFloat: string -> Number): (n: Number)
    ensures phq.PhqNumber? ==> n == phq.n
    ensures phq.PhqRecord? && phq.score.Present? ==> n == phq.score.value
    ensures phq.PhqRecord? && phq.score.Null? ==> n == Finite(0.0)
    ensures phq.PhqRecord? && phq.score.Absent? && phq.prediction.Present? ==> n == phq.prediction.value
    ensures phq.PhqRecord? && phq.score.Absent? && !phq.prediction.Present? ==> n == Finite(0.0)
    ensures phq.PhqText? ==> n == parseFloat(phq.text)
    ensures phq.PhqOther? ==> n == Finite(0.0)
  {
    match phq
    case PhqNumber(v) => v
    case PhqRecord(score, prediction, _) =>
      (match score
       case Present(v) => v
       case Null => Finite(0.0)
       case Absent => if prediction.Present? then prediction.value else Finite(0.0))
    case PhqText(t) => parseFloat(t)
    case PhqOther => Finite(0.0)
  }

  /** A `score` present as `null` scores as low, whatever the record's `prediction`. */
  lemma {:induction false} NullScoreIsLow(prediction: Field<Number>, severity: Option<string>, parseFloat: string -> Number)
    ensures GetPhqRisk(CoercePhqScore(PhqRecord(Null, prediction, severity), parseFloat), false) == EnsembleDecision(0, LowReason)
  {
  }

  /** The decision the effect computes: the coerced score, the prediction, and no Item 9 flag. */
  function EffectDecision(prediction: NlpPrediction, phq: PhqPayload, parseFloat: string -> Number): (d: EnsembleDecision)
    ensures d == FinalEnsembleDecision(CoercePhqScore(phq, parseFloat), Some(prediction), false)
    ensures KnownTier(d.tier)
  {
    EnsembleTierBounds(CoercePhqScore(phq, parseFloat), Some(prediction), false);
    FinalEnsembleDecision(CoercePhqScore(phq, parseFloat), Some(prediction), false)
  }

  // ------------------------------------------------------------------
  // Agent selection
  // ------------------------------------------------------------------

  /** The voice and text agents configured for the application. */
  datatype Agent = CompanionAgent | TextCompanionAgent | CoachAgent | ResponderAgent

  datatype AgentChoice = AgentChoice(voice: Agent, text: Agent)

  /** The agents a decision tier selects: responder at 2, coach at 1, the companions otherwise. */
  function SelectAgents(tier: int): (c: AgentChoice)
    ensures tier == 2 <==> c.voice == ResponderAgent
    ensures tier == 1 <==> c.voice == CoachAgent
    ensures c.voice == ResponderAgent <==> c.text == ResponderAgent
    ensures c.voice == CoachAgent <==> c.text == CoachAgent
    ensures tier != 1 && tier != 2 ==> c == AgentChoice(CompanionAgent, TextCompanionAgent)
  {
    if tier == 2 then AgentChoice(ResponderAgent, ResponderAgent)
    else if tier == 1 then AgentChoice(CoachAgent, CoachAgent)
    else AgentChoice(CompanionAgent, TextCompanionAgent)
  }

  /** How urgent a conversation agent is: companions 0, coach 1, responder 2. */
  function Urgency(a: Agent): nat
  {
    match a
    case CompanionAgent => 0
    case TextCompanionAgent => 0
    case CoachAgent => 1
    case ResponderAgent => 2
  }

  /** For every tier the ensemble can decide, both agents' urgency equals the tier. */
  lemma {:induction false} AgentUrgencyMatchesTier(tier: int)
    requires KnownTier(tier)
    ensures Urgency(SelectAgents(tier).voice) == tier && Urgency(SelectAgents(tier).text) == tier
  {
  }

  // ------------------------------------------------------------------
  // The provider's state and its effect
  // ------------------------------------------------------------------

  /** The provider state the effect reads and writes. */
  class GlobalState {
    var prediction: Option<NlpPrediction>
    var phqPrediction: Option<PhqPayload>
    var ensembleDecision: Option<EnsembleDecision>
    var interventionPlan: Option<InterventionPlan>
    var explainability: seq<ExplainItem>
    var selectedAgents: AgentChoice

    /** The initial `useState` values: nothing scored yet, the companion agents selected. */
    constructor ()
      ensures prediction == None && phqPrediction == None
      ensures ensembleDecision == None && interventionPlan == None && explainability == []
      ensures selectedAgents == AgentChoice(CompanionAgent, TextCompanionAgent)
    {
      prediction := None;
      phqPrediction := None;
      ensembleDecision := None;
      interventionPlan := None;
      explainability := [];
      selectedAgents := AgentChoice(CompanionAgent, TextCompanionAgent);
    }

    /** The decision, plan and explainability agree with the predictions they were built from. */
    predicate Consistent(parseFloat: string -> Number)
      reads this
    {
      prediction.Some? && phqPrediction.Some? ==>
        var d := EffectDecision(prediction.value, phqPrediction.value, parseFloat);
        && ensembleDecision == Some(d)
        && interventionPlan == BuildInterventionPlan(Some(d), prediction, phqPrediction)
        && explainability == BuildExplainabilitySummary(prediction)
        && selectedAgents == SelectAgents(d.tier)
    }

    /** The effect run when `prediction` or `phqPrediction` changes: nothing happens until both are present. */
    method OnPredictionsChanged(parseFloat: string -> Number)
      modifies this
      ensures prediction == old(prediction) && phqPrediction == old(phqPrediction)
      ensures old(prediction).None? || old(phqPrediction).None? ==>
        && ensembleDecision == old(ensembleDecision) && interventionPlan == old(interventionPlan)
        && explainability == old(explainability) && selectedAgents == old(selectedAgents)
      ensures prediction.Some? && phqPrediction.Some? ==> Consistent(parseFloat)
    {
      if prediction.Some? && phqPrediction.Some? {
        var p, phq := prediction, phqPrediction;
        var decision := EffectDecision(p.value, phq.value, parseFloat);
        var plan := BuildInterventionPlan(Some(decision), p, phq);
        var summary := BuildExplainabilitySummary(p);
        ensembleDecision := Some(decision);
        interventionPlan := plan;
        explainability := summary;
        var voiceAgent := CompanionAgent;
        var textAgent := TextCompanionAgent;
        if decision.tier == 2 {
          voiceAgent := ResponderAgent;
          textAgent := ResponderAgent;
        } else if decision.tier == 1 {
          voiceAgent := CoachAgent;
          textAgent := CoachAgent;
        }
        assert AgentChoice(voiceAgent, textAgent) == SelectAgents(decision.tier);
        selectedAgents := AgentChoice(voiceAgent, textAgent);
      }
    }

    /** `setPrediction` followed by the effect. */
    method SetPrediction(p: NlpPrediction, parseFloat: string -> Number)
      modifies this
      ensures prediction == Some(p) && phqPrediction == old(phqPrediction)
      ensures phqPrediction.Some? ==> Consistent(parseFloat)
      ensures phqPrediction.None? ==>
        && ensembleDecision == old(ensembleDecision) && interventionPlan == old(interventionPlan)
        && explainability == old(explainability) && selectedAgents == old(selectedAgents)
    {
      prediction := Some(p);
      OnPredictionsChanged(parseFloat);
    }

    /** `setPhqPrediction` followed by the effect. */
    method SetPhqPrediction(phq: PhqPayload, parseFloat: string -> Number)
      modifies this
      ensures phqPrediction == Some(phq) && prediction == old(prediction)
      ensures prediction.Some? ==> Consistent(parseFloat)
      ensures prediction.None? ==>
        && ensembleDecision == old(ensembleDecision) && interventionPlan == old(interventionPlan)
        && explainability == old(explainability) && selectedAgents == old(selectedAgents)
    {
      phqPrediction := Some(phq);
      OnPredictionsChanged(parseFloat);
    }
  }

  /** Once both predictions are in, the plan's tier is the decision's and lies in {0, 1, 2}. */
  lemma {:induction false} ConsistentPlanTier(prediction: NlpPrediction, phq: PhqPayload, parseFloat: string -> Number)
    ensures var d := EffectDecision(prediction, phq, parseFloat);
      var plan := BuildInterventionPlan(Some(d), Some(prediction), Some(phq));
      && plan.Some? && plan.value.tier == d.tier && KnownTier(plan.value.tier)
      && plan.value.text == RiskTierEntry(d.tier).value.text
  {
  }
}
