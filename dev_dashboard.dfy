/**
 * The clinician alert dashboard (src/pages/DevDashboardPage.jsx): the PHQ-9
 * score read from the model output, the five-week history with its trend
 * labels and bar colours, the flagged messages (a real-time NLP flag put in
 * front of the fixed ones), the alert payload and the dispatch log.
 * `Date.now()`, the ISO time and the formatted local time are parameters.
 */
module DevDashboard {
  import opened JsValues
  import opened ModelOutputs
  import opened RiskEnsemble

  // ------------------------------------------------------------------
  // The score on display
  // ------------------------------------------------------------------

  /**
   * `phqScoreRaw` and `phqScore`: `score ?? prediction ?? phqPrediction ?? 0`,
   * then text through `parseFloat`, a number as it is, anything else 0.
   * `??` passes over `null` and `undefined` alike.
   */
  function DashboardRawScore(phq: Option<PhqPayload>, parseFloat: string -> Number): (n: Number)
    ensures phq.None? ==> n == Finite(0.0)
    ensures phq.Some? && phq.value.PhqRecord? && phq.value.score.Present? ==> n == phq.value.score.value
    ensures phq.Some? && phq.value.PhqRecord? && !phq.value.score.Present? && phq.value.prediction.Present? ==>
      n == phq.value.prediction.value
    ensures phq.Some? && phq.value.PhqRecord? && !phq.value.score.Present? && !phq.value.prediction.Present? ==>
      n == Finite(0.0)
  {
    match phq
    case None => Finite(0.0)
    case Some(PhqRecord(score, prediction, _)) =>
      // a number property is taken even when it is NaN; the record itself is neither text nor a number
      if score.Present? then score.value else if prediction.Present? then prediction.value else Finite(0.0)
    case Some(PhqNumber(v)) => v
    case Some(PhqText(t)) => parseFloat(t)
    case Some(PhqOther) => Finite(0.0)
  }

  /** `currentScore`: NaN shows as 0, any other score is rounded. */
  function CurrentScore(phq: Option<PhqPayload>, parseFloat: string -> Number): (s: int)
    ensures DashboardRawScore(phq, parseFloat).NaN? ==> s == 0
    ensures DashboardRawScore(phq, parseFloat).Finite? ==>
      DashboardRawScore(phq, parseFloat).value - 1.0 / 2.0 < s as real <= DashboardRawScore(phq, parseFloat).value + 1.0 / 2.0
  {
    match DashboardRawScore(phq, parseFloat)
    case NaN => 0
    case Finite(v) => MathRound(v)
  }

  /**
   * The dashboard reads the number the ensemble effect scores, except on a
   * record whose `score` is `null` and whose `prediction` is a non-zero
   * number: the effect takes the `null`, the dashboard's `??` skips it.
   */
  lemma {:induction false} DashboardAgreesWithEffect(phq: PhqPayload, parseFloat: string -> Number)
    ensures DashboardRawScore(Some(phq), parseFloat) == CoercePhqScore(phq, parseFloat) <==>
      !(phq.PhqRecord? && phq.score.Null? && phq.prediction.Present? && phq.prediction.value != Finite(0.0))
  {
    match phq
    case PhqRecord(score, prediction, _) =>
    case PhqNumber(v) =>
    case PhqText(t) =>
    case PhqOther =>
  }

  /**
   * `{score: null, prediction: 25}`: the ensemble decides tier 0 on the null
   * score while the dashboard shows 25 with a red bar.
   */
  lemma {:induction false} NullScoreDisagreement(parseFloat: string -> Number)
    ensures var phq := PhqRecord(Null, Present(Finite(25.0)), None);
      && GetPhqRisk(CoercePhqScore(phq, parseFloat), false).tier == 0
      && CurrentScore(Some(phq), parseFloat) == 25
      && BarColor(CurrentScore(Some(phq), parseFloat)) == RedBar
  {
    var phq := PhqRecord(Null, Present(Finite(25.0)), None);
    assert CurrentScore(Some(phq), parseFloat) == MathRound(25.0);
  }

  /** An integral score in range shows unchanged. */
  lemma {:induction false} IntegralScoreShown(k: int, parseFloat: string -> Number)
    ensures CurrentScore(Some(PhqNumber(Finite(k as real))), parseFloat) == k
  {
    assert (k as real + 1.0 / 2.0).Floor == k;
  }

  // ------------------------------------------------------------------
  // Tier badge and history
  // ------------------------------------------------------------------

  /** `currentTier`: the decision's tier, 0 without a decision. */
  function CurrentTier(decision: Option<EnsembleDecision>): (t: int)
    ensures decision.Some? ==> t == decision.value.tier
    ensures decision.None? ==> t == 0
  {
    if decision.Some? && decision.value.tier != 0 then decision.value.tier else 0
  }

  const SevereBadge := "SEVERE RISK"
  const ModerateBadge := "MODERATE RISK"
  const StableBadge := "STABLE"

  function RiskBadge(tier: int): (badge: string)
    ensures tier == 2 ==> badge == SevereBadge
    ensures tier == 1 ==> badge == ModerateBadge
    ensures tier != 1 && tier != 2 ==> badge == StableBadge
  {
    if tier == 2 then SevereBadge else if tier == 1 then ModerateBadge else StableBadge
  }

  /** The badge names the tier: three different badges for the three tiers. */
  lemma {:induction false} BadgeIdentifiesTier(a: EnsembleDecision, b: EnsembleDecision)
    requires 0 <= a.tier <= 2 && 0 <= b.tier <= 2
    ensures RiskBadge(CurrentTier(Some(a))) == RiskBadge(CurrentTier(Some(b))) <==> a.tier == b.tier
  {
    assert |SevereBadge| != |ModerateBadge| && |SevereBadge| != |StableBadge| && |ModerateBadge| != |StableBadge|;
  }

  datatype HistoryEntry = HistoryEntry(date: string, score: int)

  /** The scale's maximum, which the history bars are drawn against. */
  const MaxScore := 27

  /** `dynamicHistory`: four fixed weeks and today's score. */
  function DynamicHistory(currentScore: int): (h: seq<HistoryEntry>)
    ensures |h| == 5 && h[4] == HistoryEntry("Today", currentScore)
  {
    [HistoryEntry("Jan 28", 11), HistoryEntry("Feb 04", 14), HistoryEntry("Feb 11", 17),
     HistoryEntry("Feb 18", 20), HistoryEntry("Today", currentScore)]
  }

  const RedBar := "var(--red)"
  const AmberBar := "#FF8C00"
  const YellowBar := "#FACC15"
  const GreenBar := "#00C872"

  /** `barColor`: red from 20, amber from 15, yellow from 10, else green. */
  function BarColor(score: int): (color: string)
    ensures score >= 20 ==> color == RedBar
    ensures 15 <= score < 20 ==> color == AmberBar
    ensures 10 <= score < 15 ==> color == YellowBar
    ensures score < 10 ==> color == GreenBar
  {
    if score >= 20 then RedBar else if score >= 15 then AmberBar else if score >= 10 then YellowBar else GreenBar
  }

  /** How urgent a bar colour reads: 0 for green up to 3 for red. */
  function Severity(color: string): nat
  {
    if color == RedBar then 3 else if color == AmberBar then 2 else if color == YellowBar then 1 else 0
  }

  /** The bar colour goes one way with the score: a higher score never gets a milder colour. */
  lemma {:induction false} BarColorMonotone(a: int, b: int)
    requires a <= b
    ensures Severity(BarColor(a)) <= Severity(BarColor(b))
  {
    assert RedBar != AmberBar && RedBar != YellowBar && RedBar != GreenBar by {
      assert RedBar[0] != AmberBar[0] && RedBar[0] != YellowBar[0] && RedBar[0] != GreenBar[0];
    }
    assert AmberBar != YellowBar && AmberBar != GreenBar && YellowBar != GreenBar by {
      assert AmberBar[2] != YellowBar[2] && AmberBar[2] != GreenBar[2] && YellowBar[2] != GreenBar[2];
    }
  }

  // ------------------------------------------------------------------
  // The alert payload
  // ------------------------------------------------------------------

  const Baseline := "BASELINE"
  const Worsening := "WORSENING"
  const Steady := "STABLE"

  datatype TrendEntry = TrendEntry(date: string, score: int, trend: string)

  /** The label of entry `i`: baseline first, then worsening exactly on a strict rise. */
  function TrendLabel(history: seq<HistoryEntry>, i: nat): string
    requires i < |history|
  {
    if i > 0 then (if history[i].score > history[i - 1].score then Worsening else Steady) else Baseline
  }

  /** `assessment.phqHistory`: each entry with its date, its score and its trend label. */
  function LabelHistory(history: seq<HistoryEntry>): (r: seq<TrendEntry>)
    ensures |r| == |history|
    ensures forall i :: 0 <= i < |history| ==> r[i].date == history[i].date && r[i].score == history[i].score
  {
    seq(|history|, i requires 0 <= i < |history| => TrendEntry(history[i].date, history[i].score, TrendLabel(history, i)))
  }

  /**
   * The labels read each entry against the one before it only: the first
   * is the baseline, a later one is worsening iff its score went up, and a
   * fall is labelled stable like a plateau.
   */
  lemma {:induction false} LabelMeaning(history: seq<HistoryEntry>)
    ensures |history| > 0 ==> LabelHistory(history)[0].trend == Baseline
    ensures forall i :: 0 < i < |history| ==>
      (LabelHistory(history)[i].trend == Worsening <==> history[i].score > history[i - 1].score)
      && (LabelHistory(history)[i].trend == Steady <==> history[i].score <= history[i - 1].score)
  {
    assert Worsening != Steady by { assert |Worsening| != |Steady|; }
    assert Baseline != Worsening && Baseline != Steady by { assert Baseline[0] != Worsening[0] && Baseline[0] != Steady[0]; }
  }

  /** A new week does not relabel the earlier ones. */
  lemma {:induction false} LabelHistoryExtends(history: seq<HistoryEntry>, next: HistoryEntry)
    ensures LabelHistory(history + [next])[..|history|] == LabelHistory(history)
  {
    var h := history + [next];
    forall i | 0 <= i < |history| ensures TrendLabel(h, i) == TrendLabel(history, i) {
      if i > 0 {
        assert h[i] == history[i] && h[i - 1] == history[i - 1];
      }
    }
  }

  /** For any current score above 20 the generated history rises every week, so every later week reads as worsening. */
  lemma {:induction false} RisingHistoryWorsens(currentScore: int)
    requires currentScore > 20
    ensures forall i :: 0 < i < 5 ==> LabelHistory(DynamicHistory(currentScore))[i].trend == Worsening
  {
    var h := DynamicHistory(currentScore);
    assert h[1].score > h[0].score && h[2].score > h[1].score && h[3].score > h[2].score && h[4].score > h[3].score;
    LabelMeaning(h);
  }

  datatype Message = Message(content: string, timestamp: string, sentimentScore: real, flags: seq<string>, level: string)

  datatype ConcerningMessage = ConcerningMessage(timestamp: string, content: string, sentimentScore: real, flags: seq<string>)

  /** `concerningMessages`: every message without its display level. */
  function ProjectMessages(messages: seq<Message>): (r: seq<ConcerningMessage>)
    ensures |r| == |messages|
    ensures forall i :: 0 <= i < |messages| ==>
      r[i] == ConcerningMessage(messages[i].timestamp, messages[i].content, messages[i].sentimentScore, messages[i].flags)
  {
    seq(|messages|, i requires 0 <= i < |messages| =>
      ConcerningMessage(messages[i].timestamp, messages[i].content, messages[i].sentimentScore, messages[i].flags))
  }

  /** Projecting commutes with putting a message in front. */
  lemma {:induction false} ProjectPrepend(m: Message, messages: seq<Message>)
    ensures ProjectMessages([m] + messages) == ProjectMessages([m]) + ProjectMessages(messages)
  {
    var l := ProjectMessages([m] + messages);
    var r := ProjectMessages([m]) + ProjectMessages(messages);
    forall i | 0 <= i < |l| ensures l[i] == r[i] {
      if i > 0 {
        assert ([m] + messages)[i] == messages[i - 1];
      }
    }
  }

  const RecommendedActions: seq<string> := [
    "Immediate welfare check",
    "Direct phone contact by assigned clinician",
    "Notify emergency contact",
    "Engage 988 Crisis Lifeline if unreachable"]

  const ClinicalNote := "PHQ-9 score in severe range (20-27). Immediate clinical intervention required."

  datatype User = User(id: string, name: string, location: string)

  datatype Assessment = Assessment(currentPHQScore: int, riskLevel: string, clinicalNote: string, phqHistory: seq<TrendEntry>)

  datatype AlertPayload = AlertPayload(
    alertId: string, timestamp: string, severity: string, alertType: string,
    userId: string, location: string, assessment: Assessment,
    concerningMessages: seq<ConcerningMessage>, recommendedActions: seq<string>)

  /**
   * `buildPayload`: the alert for the user, scored by the last history entry,
   * with the labelled history, the projected messages and the four actions.
   * The history must not be empty (`at(-1)` of an empty list has no score).
   */
  function BuildPayload(user: User, history: seq<HistoryEntry>, messages: seq<Message>, nowMs: int, isoTime: string): (p: AlertPayload)
    requires |history| > 0
    ensures p.alertId == "ALERT-" + IntToString(nowMs) + "-" + user.id
    ensures p.userId == user.id && p.location == user.location && p.timestamp == isoTime
    ensures p.severity == "CRITICAL" && p.assessment.riskLevel == "SEVERE"
    ensures p.assessment.currentPHQScore == history[|history| - 1].score
    ensures p.assessment.phqHistory == LabelHistory(history)
    ensures p.concerningMessages == ProjectMessages(messages)
    ensures p.alertType == "HIGH_RISK_DEPRESSION_SUICIDAL" && p.assessment.clinicalNote == ClinicalNote
    ensures p.recommendedActions == RecommendedActions && |p.recommendedActions| == 4
  {
    AlertPayload(
      "ALERT-" + IntToString(nowMs) + "-" + user.id, isoTime, "CRITICAL", "HIGH_RISK_DEPRESSION_SUICIDAL",
      user.id, user.location,
      Assessment(history[|history| - 1].score, "SEVERE", ClinicalNote, LabelHistory(history)),
      ProjectMessages(messages), RecommendedActions)
  }

  /** The payload's score is today's score, whatever the history before it. */
  lemma {:induction false} PayloadScoresToday(user: User, currentScore: int, messages: seq<Message>, nowMs: int, isoTime: string)
    ensures BuildPayload(user, DynamicHistory(currentScore), messages, nowMs, isoTime).assessment.currentPHQScore == currentScore
    ensures |BuildPayload(user, DynamicHistory(currentScore), messages, nowMs, isoTime).assessment.phqHistory| == 5
  {
  }

  // ------------------------------------------------------------------
  // Flagged messages
  // ------------------------------------------------------------------

  const FixedMessages: seq<Message> := [
    Message("I don't see any point in continuing. Nothing I do seems to matter.", "Feb 21, 09:12", -0.94,
      ["hopelessness", "passive-ideation"], "high"),
    Message("I've been isolating myself. Can't bring myself to talk to anyone.", "Feb 20, 22:45", -0.78,
      ["social-withdrawal"], "med"),
    Message("What would people think if I just disappeared?", "Feb 20, 19:30", -0.91,
      ["suicidal-ideation", "disappearance"], "high")]

  const NlpFlagContent := "Real-time NLP flagged conversation."

  /** The display level of a flagged message for the tier. */
  function Level(tier: int): string
  {
    if tier == 2 then "high" else if tier == 1 then "med" else "low"
  }

  /** The prediction flags a conversation when present with a class other than `"stable"`. */
  predicate Flags(prediction: Option<NlpPrediction>)
  {
    prediction.Some? && prediction.value.predictedClass != Some("stable")
  }

  /** The message the NLP flag adds. */
  function NlpFlagMessage(p: NlpPrediction, now: string, tier: int): (m: Message)
    ensures m.content == NlpFlagContent && m.timestamp == now && m.level == Level(tier)
    ensures p.confidence.Some? && p.confidence.value != 0.0 ==> m.sentimentScore == -ToFixed(p.confidence.value, 2)
    ensures !(p.confidence.Some? && p.confidence.value != 0.0) ==> m.sentimentScore == -0.85
    ensures p.predictedClass.Some? && p.predictedClass.value != "" ==> m.flags == [p.predictedClass.value]
    ensures !(p.predictedClass.Some? && p.predictedClass.value != "") ==> m.flags == ["risk-detected"]
  {
    var score := if p.confidence.Some? && p.confidence.value != 0.0 then -ToFixed(p.confidence.value, 2) else -0.85;
    var flag := if p.predictedClass.Some? && p.predictedClass.value != "" then p.predictedClass.value else "risk-detected";
    Message(NlpFlagContent, now, score, [flag], Level(tier))
  }

  /**
   * `dynamicMessages`: a copy of the fixed messages, with the NLP flag
   * put in front when the prediction flags the conversation.
   */
  method DynamicMessages(prediction: Option<NlpPrediction>, now: string, tier: int) returns (messages: seq<Message>)
    ensures Flags(prediction) ==> messages == [NlpFlagMessage(prediction.value, now, tier)] + FixedMessages
    ensures !Flags(prediction) ==> messages == FixedMessages
  {
    messages := FixedMessages;
    if prediction.Some? && prediction.value.predictedClass != Some("stable") {
      messages := [NlpFlagMessage(prediction.value, now, tier)] + messages;
    }
  }

  /** The flag only ever adds one message in front; the fixed messages follow unchanged. */
  lemma {:induction false} FlaggedMessagesKeepFixed(p: NlpPrediction, now: string, tier: int)
    ensures var all := [NlpFlagMessage(p, now, tier)] + FixedMessages;
      |all| == 4 && all[1..] == FixedMessages && all[0].content == NlpFlagContent
      && ProjectMessages(all)[1..] == ProjectMessages(FixedMessages)
  {
    var all := [NlpFlagMessage(p, now, tier)] + FixedMessages;
    assert all[1..] == FixedMessages;
    ProjectPrepend(NlpFlagMessage(p, now, tier), FixedMessages);
  }

  // ------------------------------------------------------------------
  // Dispatch
  // ------------------------------------------------------------------

  datatype LogEntry = LogEntry(status: string, msg: string, time: string)

  const InitialLog: seq<LogEntry> := [
    LogEntry("sent", "Alert logged in clinical system.", "09:47"),
    LogEntry("pending", "Email dispatch to Dr. Sofia Reyes queued.", "09:47"),
    LogEntry("pending", "SMS to Emergency Contact queued.", "09:47")]

  const DispatchedLog: seq<LogEntry> := [
    LogEntry("sent", "CRITICAL alert sent to authority endpoint.", "09:48"),
    LogEntry("sent", "Email dispatched \U{2192} dr.reyes@clinic.org", "09:48"),
    LogEntry("sent", "SMS dispatched \U{2192} Jordan M. (+1 312 \U{2022}\U{2022}\U{2022}\U{2022} 7821)", "09:48"),
    LogEntry("sent", "Audit log entry created.", "09:48"),
    LogEntry("sent", "Alert logged in clinical system.", "09:47")]

  /** Every entry of a log has been sent. */
  predicate AllSent(log: seq<LogEntry>)
  {
    forall i :: 0 <= i < |log| ==> log[i].status == "sent"
  }

  /** The dashboard's `dispatched`, `log` and `showModal` state. */
  class AlertConsole {
    var dispatched: bool
    var log: seq<LogEntry>
    var showModal: bool

    /** The log matches the dispatch state: queued entries before, all sent after. */
    predicate Valid()
      reads this
    {
      (dispatched ==> log == DispatchedLog) && (!dispatched ==> log == InitialLog)
    }

    constructor ()
      ensures Valid() && !dispatched && !showModal
    {
      dispatched := false;
      log := InitialLog;
      showModal := false;
    }

    /** `dispatch`: marks the alert dispatched and replaces the log with the sent entries. */
    method Dispatch()
      requires Valid()
      modifies this
      ensures Valid() && dispatched && AllSent(log) && |log| == 5
      ensures old(dispatched) ==> log == old(log)
      ensures showModal == old(showModal)
    {
      dispatched := true;
      log := DispatchedLog;
    }

    /** Opens or closes the payload dialog; nothing else changes. */
    method SetShowModal(show: bool)
      modifies this
      ensures showModal == show && dispatched == old(dispatched) && log == old(log)
    {
      showModal := show;
    }
  }

  /** Before dispatch only the first entry has been sent. */
  lemma {:induction false} InitialLogPending()
    ensures !AllSent(InitialLog) && InitialLog[0].status == "sent"
  {
    assert InitialLog[1].status != "sent" by { assert |InitialLog[1].status| != |"sent"|; }
  }
}
