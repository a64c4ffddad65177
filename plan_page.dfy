/**
 * The personal care plan page (src/pages/PlanPage.jsx): the weekly trend
 * drawn for the current support level, the tier merge between the model
 * pipeline and the adaptive check-in, the check-in progress bar and the
 * safety decision shown beside the crisis resources.
 */
module PlanPage {
  import opened JsValues
  import opened ModelOutputs
  import opened RiskUtils

  datatype TrendPoint = TrendPoint(day: string, risk: int, resilience: int)

  const DayLabels: seq<string> := ["Mon", "Tue", "Wed", "Thu", "Fri", "Sat", "Sun"]
  const BaseRisk: seq<int> := [30, 34, 41, 44, 39, 31, 29]
  const RiskCeiling := 95
  const ResilienceFloor := 25

  /** The risk added for the support level: 24 at tier 2, 12 at tier 1, none otherwise. */
  function Uplift(baseTier: int): (u: int)
    ensures baseTier == 2 ==> u == 24
    ensures baseTier == 1 ==> u == 12
    ensures baseTier != 1 && baseTier != 2 ==> u == 0
  {
    if baseTier == 2 then 24 else if baseTier == 1 then 12 else 0
  }

  /** The risk of day `idx`: the base risk plus the uplift, plus 5 on Wednesday, capped at 95. */
  function DayRisk(baseTier: int, idx: nat): int
    requires idx < |BaseRisk|
  {
    Min(RiskCeiling, BaseRisk[idx] + Uplift(baseTier) + (if idx == 2 then 5 else 0))
  }

  /** The resilience of day `idx`: 82 less the risk, plus 6 at the weekend, never below 25. */
  function DayResilience(baseTier: int, idx: nat): int
    requires idx < |BaseRisk|
  {
    Max(ResilienceFloor, 82 - DayRisk(baseTier, idx) + (if idx >= 5 then 6 else 0))
  }

  /**
   * `buildUserTrend`: one point per weekday, Monday to Sunday, whose risk
   * never exceeds 95 and never falls below the day's base risk, and whose
   * resilience never falls below 25 nor below 82 less the risk.
   */
  function BuildUserTrend(baseTier: int): (trend: seq<TrendPoint>)
    ensures |trend| == 7
    ensures forall i :: 0 <= i < 7 ==> trend[i].day == DayLabels[i]
    ensures forall i :: 0 <= i < 7 ==>
      BaseRisk[i] <= trend[i].risk <= RiskCeiling && trend[i].resilience >= ResilienceFloor
      && trend[i].resilience >= 82 - trend[i].risk
  {
    seq(7, i requires 0 <= i < 7 => TrendPoint(DayLabels[i], DayRisk(baseTier, i), DayResilience(baseTier, i)))
  }

  /** A higher support level never lowers a day's risk and never raises its resilience. */
  lemma {:induction false} UserTrendMonotone(lower: int, higher: int)
    requires 0 <= lower <= higher <= 2
    ensures forall i :: 0 <= i < 7 ==>
      BuildUserTrend(lower)[i].risk <= BuildUserTrend(higher)[i].risk
      && BuildUserTrend(lower)[i].resilience >= BuildUserTrend(higher)[i].resilience
  {
    assert Uplift(lower) <= Uplift(higher);
    forall i | 0 <= i < 7
      ensures BuildUserTrend(lower)[i].risk <= BuildUserTrend(higher)[i].risk
      ensures BuildUserTrend(lower)[i].resilience >= BuildUserTrend(higher)[i].resilience
    {
      assert DayRisk(lower, i) <= DayRisk(higher, i);
    }
  }

  /**
   * The uplift is at most 24, so no day ever comes near the 95 cap: the
   * highest risk drawn is Wednesday's 70 at tier 2, where resilience sits
   * on its floor of 25.
   */
  lemma {:induction false} TrendPeak(baseTier: int)
    ensures forall i :: 0 <= i < 7 ==> BuildUserTrend(baseTier)[i].risk <= 70 < RiskCeiling
    ensures BuildUserTrend(2)[2] == TrendPoint("Wed", 70, ResilienceFloor)
  {
    forall i | 0 <= i < 7 ensures BuildUserTrend(baseTier)[i].risk <= 70 {
      assert DayRisk(baseTier, i) <= 70;
    }
    assert DayRisk(2, 2) == 70;
  }

  /**
   * `baseTier`: the intervention plan's tier, else the ensemble decision's,
   * else the prediction's `risk_tier`, else 0.
   */
  function BaseTier(plan: Option<InterventionPlan>, decision: Option<EnsembleDecision>, prediction: Option<NlpPrediction>): (t: int)
    ensures plan.Some? ==> t == plan.value.tier
    ensures plan.None? && decision.Some? ==> t == decision.value.tier
    ensures plan.None? && decision.None? && prediction.Some? && prediction.value.riskTier.Some? ==>
      t == prediction.value.riskTier.value
    ensures plan.None? && decision.None? && (prediction.None? || prediction.value.riskTier.None?) ==> t == 0
  {
    if plan.Some? then plan.value.tier
    else if decision.Some? then decision.value.tier
    else if prediction.Some? && prediction.value.riskTier.Some? then prediction.value.riskTier.value
    else 0
  }

  /** `effectiveTier`: the higher of the pipeline's tier and the check-in's tier. */
  function EffectiveTier(baseTier: int, screeningTier: int): (t: int)
    ensures t >= baseTier && t >= screeningTier
    ensures t == baseTier || t == screeningTier
  {
    Max(baseTier, screeningTier)
  }

  /** The number of check-in questions the progress bar counts to. */
  const ProgressQuestions := 6

  /** `progress`: answers out of six as a rounded percentage, capped at 100. */
  function Progress(answered: nat): (p: int)
    ensures 0 <= p <= 100
    ensures answered >= ProgressQuestions ==> p == 100
    ensures p < 100 ==> p as real - 1.0 / 2.0 < (answered as real / 6.0) * 100.0 <= p as real + 1.0 / 2.0
  {
    Min(100, MathRound((answered as real / 6.0) * 100.0))
  }

  /** More answers never move the progress bar back. */
  lemma {:induction false} ProgressMonotone(a: nat, b: nat)
    requires a <= b
    ensures Progress(a) <= Progress(b)
  {
    var x := (a as real / 6.0) * 100.0;
    var y := (b as real / 6.0) * 100.0;
    assert x <= y;
    assert (x + 1.0 / 2.0).Floor <= (y + 1.0 / 2.0).Floor;
  }

  /** The progress of the first answers: 17, 33, 50, 67 and 83 percent. */
  lemma {:induction false} ProgressSteps()
    ensures Progress(0) == 0 && Progress(1) == 17 && Progress(2) == 33 && Progress(3) == 50
    ensures Progress(4) == 67 && Progress(5) == 83
  {
    assert MathRound(100.0 / 6.0) == 17;
    assert MathRound(200.0 / 6.0) == 33;
    assert MathRound(400.0 / 6.0) == 67;
    assert MathRound(500.0 / 6.0) == 83;
  }

  const ImmediateSupport := "Immediate Support"
  const EarlySupport := "Early Support"
  const RoutineSupport := "Routine Support"

  /** The "Current Safety Decision" label. */
  function SafetyDecision(effectiveTier: int): (decision: string)
    ensures effectiveTier >= 2 ==> decision == ImmediateSupport
    ensures effectiveTier == 1 ==> decision == EarlySupport
    ensures effectiveTier < 1 ==> decision == RoutineSupport
  {
    if effectiveTier >= 2 then ImmediateSupport else if effectiveTier == 1 then EarlySupport else RoutineSupport
  }

  /** The crisis resources are listed at tier 2 and above, or whenever the check-in raised its safety flag. */
  predicate ShowCrisisResources(effectiveTier: int, safetyFlag: bool)
  {
    effectiveTier >= 2 || safetyFlag
  }

  /**
   * Without a safety flag, the resources appear exactly when the decision
   * reads "Immediate Support"; with one they always appear.
   */
  lemma {:induction false} ResourcesFollowDecision(baseTier: int, screeningTier: int, safetyFlag: bool)
    ensures var t := EffectiveTier(baseTier, screeningTier);
      ShowCrisisResources(t, safetyFlag) <==> safetyFlag || SafetyDecision(t) == ImmediateSupport
    ensures baseTier >= 2 ==> ShowCrisisResources(EffectiveTier(baseTier, screeningTier), safetyFlag)
  {
    var t := EffectiveTier(baseTier, screeningTier);
    if t < 2 {
      assert SafetyDecision(t) != ImmediateSupport by {
        assert |SafetyDecision(t)| != |ImmediateSupport|;
      }
    }
  }
}
