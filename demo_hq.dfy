/**
 * The demo command centre (src/pages/DemoHQPage.jsx): a persona's risk
 * trend is replayed step by step; the current point gives the live tier,
 * the trend so far gives a direction, and the tier picks the policy and
 * escalation labels.
 */
module DemoHq {
  import opened JsValues
  import opened PlanPage

  datatype Milestone = Milestone(title: string, detail: string, impact: string)

  datatype Persona = Persona(id: string, name: string, trend: seq<TrendPoint>, milestones: seq<Milestone>)

  /** `mapTierFromRiskScore`: 2 from a risk of 65, 1 from 45, else 0. */
  function MapTierFromRiskScore(riskScore: int): (tier: int)
    ensures tier == 2 <==> riskScore >= 65
    ensures tier == 1 <==> 45 <= riskScore < 65
    ensures tier == 0 <==> riskScore < 45
  {
    if riskScore >= 65 then 2 else if riskScore >= 45 then 1 else 0
  }

  /** A higher risk score never maps to a lower tier. */
  lemma {:induction false} MapTierMonotone(a: int, b: int)
    requires a <= b
    ensures MapTierFromRiskScore(a) <= MapTierFromRiskScore(b)
  {
    if MapTierFromRiskScore(b) < 2 {
      assert b < 65;
    }
  }

  datatype Direction = Stable | Deteriorating | Improving

  /** The change that counts as a direction rather than noise. */
  const TrendDelta := 12

  /**
   * `trendDirection`: fewer than two points is stable; otherwise the last
   * risk less the first decides, 12 up deteriorating, 12 down improving.
   */
  function TrendDirection(points: seq<TrendPoint>): (d: Direction)
    ensures |points| < 2 ==> d == Stable
    ensures |points| >= 2 ==>
      && (d == Deteriorating <==> points[|points| - 1].risk - points[0].risk >= TrendDelta)
      && (d == Improving <==> points[|points| - 1].risk - points[0].risk <= -TrendDelta)
  {
    if |points| < 2 then Stable
    else
      var delta := points[|points| - 1].risk - points[0].risk;
      if delta >= TrendDelta then Deteriorating
      else if delta <= -TrendDelta then Improving
      else Stable
  }

  /** Only the first and the last point decide the direction. */
  lemma {:induction false} DirectionFromEndpoints(a: seq<TrendPoint>, b: seq<TrendPoint>)
    requires |a| >= 2 && |b| >= 2
    requires a[0].risk == b[0].risk && a[|a| - 1].risk == b[|b| - 1].risk
    ensures TrendDirection(a) == TrendDirection(b)
  {
  }

  /** Replaying a trend backwards swaps deteriorating and improving. */
  lemma {:induction false} DirectionReversed(points: seq<TrendPoint>)
    ensures var back := seq(|points|, i requires 0 <= i < |points| => points[|points| - 1 - i]);
      && (TrendDirection(points) == Deteriorating <==> TrendDirection(back) == Improving)
      && (TrendDirection(points) == Improving <==> TrendDirection(back) == Deteriorating)
      && (TrendDirection(points) == Stable <==> TrendDirection(back) == Stable)
  {
    var back := seq(|points|, i requires 0 <= i < |points| => points[|points| - 1 - i]);
    if |points| >= 2 {
      assert back[0] == points[|points| - 1];
      assert back[|back| - 1] == points[0];
    }
  }

  /** The direction of the trend replayed up to `step`: once the step reaches the end, it is the whole trend's. */
  lemma {:induction false} DirectionAtLastStep(trend: seq<TrendPoint>, step: nat)
    requires step + 1 >= |trend|
    ensures TrendDirection(trend[..Min(step + 1, |trend|)]) == TrendDirection(trend)
  {
    assert trend[..Min(step + 1, |trend|)] == trend;
  }

  /** `statusColor` of a care-queue entry. */
  function StatusColor(status: string): (color: string)
    ensures status == "Escalated" ==> color == "#c23934"
    ensures status == "Needs follow-up" ==> color == "#d9822b"
    ensures status != "Escalated" && status != "Needs follow-up" ==> color == "#1f8f5f"
  {
    if status == "Escalated" then "#c23934"
    else if status == "Needs follow-up" then "#d9822b"
    else "#1f8f5f"
  }

  /** The colour tells the status apart: red only for escalated entries, orange only for those needing follow-up. */
  lemma {:induction false} StatusFromColor(status: string)
    ensures StatusColor(status) == "#c23934" <==> status == "Escalated"
    ensures StatusColor(status) == "#d9822b" <==> status == "Needs follow-up"
    ensures StatusColor(status) == "#1f8f5f" <==> status != "Escalated" && status != "Needs follow-up"
  {
    assert "#c23934"[1] != "#d9822b"[1] && "#c23934"[1] != "#1f8f5f"[1] && "#d9822b"[1] != "#1f8f5f"[1];
  }

  /** The selected persona: the first with the id, else the first of all. */
  function FindPersona(personas: seq<Persona>, id: string): (p: Persona)
    requires |personas| > 0
    ensures p in personas
    ensures (exists i :: 0 <= i < |personas| && personas[i].id == id) ==> p.id == id
    ensures (forall i :: 0 <= i < |personas| ==> personas[i].id != id) ==> p == personas[0]
  {
    var i := FirstWithId(personas, id);
    if i < |personas| then personas[i] else personas[0]
  }

  /** The index of the first persona with the id, or the length when there is none. */
  function FirstWithId(personas: seq<Persona>, id: string): (i: nat)
    ensures i <= |personas|
    ensures i < |personas| ==> personas[i].id == id
    ensures forall j :: 0 <= j < i ==> personas[j].id != id
    decreases |personas|
  {
    if personas == [] then 0
    else if personas[0].id == id then 0
    else 1 + FirstWithId(personas[1..], id)
  }

  /** `currentPoint`: the point at the step, or the last point when the step is past the end. */
  function CurrentPoint(trend: seq<TrendPoint>, step: int): (p: TrendPoint)
    requires |trend| > 0
    ensures p in trend
    ensures 0 <= step < |trend| ==> p == trend[step]
    ensures !(0 <= step < |trend|) ==> p == trend[|trend| - 1]
  {
    if 0 <= step < |trend| then trend[step] else trend[|trend| - 1]
  }

  /** `primaryMilestone`: the milestone at the step, clamped to the last one; none when there are none. */
  function PrimaryMilestone(milestones: seq<Milestone>, step: nat): (m: Option<Milestone>)
    ensures m.Some? <==> |milestones| > 0
    ensures m.Some? ==> m.value in milestones
    ensures step < |milestones| ==> m == Some(milestones[step])
    ensures |milestones| > 0 && step >= |milestones| ==> m == Some(milestones[|milestones| - 1])
  {
    var idx := Min(step, |milestones| - 1);
    if 0 <= idx < |milestones| then Some(milestones[idx]) else None
  }

  /** The risk-resilience gap shown beside the tier. */
  function Gap(point: TrendPoint): (g: int)
    ensures g >= 0
    ensures g > 0 <==> point.risk > point.resilience
    ensures g > 0 ==> point.resilience + g == point.risk
  {
    Max(0, point.risk - point.resilience)
  }

  const EscalatePolicy := "Escalate"
  const IntervenePolicy := "Intervene"
  const MonitorPolicy := "Monitor"
  const ImmediateDecision := "Immediate"
  const EarlyDecision := "Early Support"
  const RoutineDecision := "Routine Monitoring"

  /** The policy shown for the live tier. */
  function Policy(tier: int): (policy: string)
    ensures tier >= 2 ==> policy == EscalatePolicy
    ensures tier == 1 ==> policy == IntervenePolicy
    ensures tier < 1 ==> policy == MonitorPolicy
  {
    if tier >= 2 then EscalatePolicy else if tier == 1 then IntervenePolicy else MonitorPolicy
  }

  /** The live escalation decision for the live tier. */
  function LiveDecision(tier: int): (decision: string)
    ensures tier >= 2 ==> decision == ImmediateDecision
    ensures tier == 1 ==> decision == EarlyDecision
    ensures tier < 1 ==> decision == RoutineDecision
  {
    if tier >= 2 then ImmediateDecision else if tier == 1 then EarlyDecision else RoutineDecision
  }

  /**
   * For the tier of any live point, the policy, the escalation decision and
   * the resources agree: escalate, immediate and resources shown come together
   * when the safety flag is down.
   */
  lemma {:induction false} LabelsAgree(point: TrendPoint)
    ensures var t := MapTierFromRiskScore(point.risk);
      && (Policy(t) == EscalatePolicy <==> LiveDecision(t) == ImmediateDecision)
      && (LiveDecision(t) == ImmediateDecision <==> ShowCrisisResources(t, false))
      && (Policy(t) == EscalatePolicy <==> point.risk >= 65)
  {
    var t := MapTierFromRiskScore(point.risk);
    assert |EscalatePolicy| != |IntervenePolicy| && |EscalatePolicy| != |MonitorPolicy|;
    assert |ImmediateDecision| != |EarlyDecision| && |ImmediateDecision| != |RoutineDecision|;
  }
}
