# Depression screening app: a Dafny model of its decision core

This project models the decision logic of a web app for depression
screening and care planning, and proves properties of that model. The app:

- runs an adaptive check-in questionnaire;
- merges a PHQ-9 model score with an NLP prediction into a risk tier from 0 to 2;
- builds intervention and action plans and an explainability summary from that tier;
- counts daily check-in streaks;
- keeps a list of trusted contacts, with consent flags, for escalation;
- shows several dashboard pages with tier badges, trends and alert payloads;
- folds health metrics into a 12-dimensional embedding for similar-case lookup;
- polls a simulated health-data collector on a countdown and prunes its logs to a two-day window.

The model has one module per source file, plus two shared modules:

| module | file | models |
|---|---|---|
| `JsValues` | js_values.dfy | JavaScript built-ins: the `Option` type, numbers that may be `NaN`, `Math.round`, `toFixed`, decimal printing and parsing |
| `ModelOutputs` | model_outputs.dfy | the NLP prediction, PHQ payload and ensemble decision records |
| `Screening` | screening.dfy | the adaptive questionnaire, its summary and its action plan |
| `RiskEnsemble` | risk_ensemble.dfy | the PHQ and NLP ensemble, its payload coercion and the provider state |
| `RiskUtils` | risk_utils.dfy | the tier table, the explainability summary and the intervention plan |
| `Engagement` | engagement.dfy | unique check-in days, streaks and nudges |
| `SafetyEscalation` | safety_escalation.dfy | the escalation console, modelled as a class |
| `PlanPage` | plan_page.dfy | the personal weekly trend, the tier merge, progress and the safety decision |
| `DemoHq` | demo_hq.dfy | the demo command centre's tier mapping, trend direction and clamps |
| `DevDashboard` | dev_dashboard.dfy | the clinician alert page: coercion, badge, bar colours, payload and messages |
| `VectorPayload` | vector_payload.dfy | the 32-bit string hash, the embedding, the cosine guard and the case ranking |
| `Collector` | collector.dfy | the retention filter, the formatters, the metric catalogue and the collector state |

Where the source works by updating state, the model is imperative:

- The escalation console, the provider state, the engagement store, the alert console and the collector are classes. Their methods carry `modifies` clauses.
- The accumulator loop of `summarizeScreening` is a method with a loop.
- So are the loop of `calculateStreak` and the loops of `stableHash`, `buildEmbeddingFromMetrics` (over an `array`), `cosineSimilarity` and `simulateHealthConnectData`.

Each method is proved against a specification function. The properties of that function are proved as lemmas.

External inputs become parameters:

- the clock: `now`, the UTC and the local date, ISO timestamp strings and `Date.now()` ids;
- random draws: `random`;
- `parseFloat` and `Math.sqrt`: uninterpreted functions.

## Model

The table has one row per member whose contract states something about the source. Two kinds of member have no row.

The first kind is helper lemmas that serve a single proof:

- the ten key-disjointness lemmas of the metric groups (`Collector.HeartRateKeysDistinct`, `Collector.HeartRateApartSleep` and the rest), which serve `Collector.MetricCatalogue`;
- `Engagement.TailAbove`, which serves `Engagement.Insert`;
- `VectorPayload.WithSimilaritySnoc`, `VectorPayload.HeadIsMostSimilar`, `VectorPayload.WithSimilarityNone`, `VectorPayload.ConcatAssociative` and `VectorPayload.SortLast`, which serve `VectorPayload.SortIsStable`;
- `VectorPayload.Zeros` and `VectorPayload.SumSquares`, which build the bucket vector and the norm.

The second kind is specification functions and predicates with no contract of their own. The rows' contracts are stated in terms of them, and the facts about them are proved by the lemmas in the table. Those that stand for a piece of the source are listed here with the lines they model:

- `SafetyEscalation.EscalationConsole.CanEscalateToContacts`: src/components/SafetyEscalationConsole.jsx:30-33; `SafetyEscalation.EscalationConsole.Snapshot` and `SafetyEscalation.EscalationConsole.Persisted`: src/components/SafetyEscalationConsole.jsx:35-46; `SafetyEscalation.Trim` and `SafetyEscalation.IsJsWhitespace`: src/components/SafetyEscalationConsole.jsx:50-51;
- `Screening.QuestionById`, `Screening.Key`, `Screening.NextKey`, `Screening.Prompt`, `Screening.OptionLabel` and `Screening.TextOf`: src/screening/adaptiveEngine.js:1-72; `Screening.Choose` and `Screening.FirstMatch`: src/screening/adaptiveEngine.js:86; `Screening.AnswerRecord`: src/screening/adaptiveEngine.js:89-99; `Screening.TotalScore`: src/screening/adaptiveEngine.js:110-121; `Screening.AddToCategory` and `Screening.CategoryTable`: src/screening/adaptiveEngine.js:114; `Screening.SafetySignal` and `Screening.HasSafetySignal`: src/screening/adaptiveEngine.js:115-117; `Screening.TopFocus`: src/screening/adaptiveEngine.js:140-144;
- `RiskUtils.KnownTier`: src/riskUtils.js:1-17; `RiskUtils.MetricLabel`: src/riskUtils.js:40-46; `RiskUtils.HasFeatures`: src/riskUtils.js:51; `RiskUtils.FeatureEffect`: src/riskUtils.js:54; `RiskUtils.Seed`: src/riskUtils.js:58; `RiskUtils.FallbackEffect`: src/riskUtils.js:59-65; `RiskUtils.MetricName`: src/riskUtils.js:68;
- `RiskEnsemble.SuicideClass`: src/GlobalStateProvider.jsx:23; `RiskEnsemble.PassiveSignal`: src/GlobalStateProvider.jsx:27;
- `Engagement.CheckInUpdate`: src/growth/engagementEngine.js:33; `Engagement.Streak`, `Engagement.Run`, `Engagement.ConsecutiveFrom` and `Engagement.HasFutureDay`: src/growth/engagementEngine.js:39-61;
- `PlanPage.DayRisk`: src/pages/PlanPage.jsx:37; `PlanPage.DayResilience`: src/pages/PlanPage.jsx:38; `PlanPage.ShowCrisisResources`: src/pages/PlanPage.jsx:214;
- `DevDashboard.TrendLabel`: src/pages/DevDashboardPage.jsx:299; `DevDashboard.Flags`: src/pages/DevDashboardPage.jsx:355; `DevDashboard.Level`: src/pages/DevDashboardPage.jsx:361;
- `Collector.AllKeys`: src/pages/CollectorPage.jsx:75-76; `Collector.SimulatedValue`: src/pages/CollectorPage.jsx:77; `Collector.Recent`: src/pages/CollectorPage.jsx:114-117; `Collector.Lead` and `Collector.Tail`: src/pages/CollectorPage.jsx:120-123; `Collector.LogsValid`: src/pages/CollectorPage.jsx:165-175; `Collector.Ticks`: src/pages/CollectorPage.jsx:187; `Collector.BannerClock`: src/pages/CollectorPage.jsx:228; `Collector.CountdownClock`: biohealth-collector.jsx:447;
- `VectorPayload.HashStep` and `VectorPayload.Polynomial`: src/vectorai/vectorPayload.js:1-8; `VectorPayload.MetricsOrEmpty`: src/vectorai/vectorPayload.js:10; `VectorPayload.UnitsLeq`, `VectorPayload.KeyLeq` and `VectorPayload.KeysSorted`: the default `sort` of the keys in src/vectorai/vectorPayload.js:11; `VectorPayload.WithSimilarity`: the ranked list of src/vectorai/vectorPayload.js:78-83; `VectorPayload.Dot` and `VectorPayload.Cosine`: src/vectorai/vectorPayload.js:26-38;
- the JavaScript value helpers of `JsValues`, which stand for the language's own operations: `AtLeast` (a comparison that is false for NaN), `Min`, `Max`, `MathRound`, `RoundHalfUp`, `ToFixed`, the decimal text of integers, and `IsDigit`, `AllDigits` and `ParseDigits`.

The rest have no single source line because they are notions of the model itself:

- sequence predicates: `Collector.Distinct`, `Collector.Disjoint`, `Collector.IsSubsequence`, `Screening.Distinct`, `Engagement.Increasing`, `Engagement.Descending`, `Engagement.Elements`, `VectorPayload.NonIncreasing`;
- the stamp selectors: `Collector.CallStamp`, `Collector.SmsStamp`, `Collector.HistoryStamp`;
- the ranks and walks that prove the questionnaire ends: `Screening.Rank`, `Screening.NextRank`, `Screening.Remaining`, `Screening.Walk`, `Screening.Cursor`, `Screening.LongestChoices`, `Screening.FirstChoices`, `Screening.WellFormed`, `Screening.OptionIdsDistinct`;
- the category-table views: `Screening.CategorySum`, `Screening.Keys`, `Screening.ValueOf`, `Screening.TableSum`, `Screening.HasCategory`, `Screening.FirstAppearances`;
- urgency orders: `DevDashboard.Severity` and `RiskEnsemble.Urgency`;
- `DevDashboard.AllSent`;
- the totals `VectorPayload.Sum` and `VectorPayload.RawTotal`, with which the bucket accumulation's total is stated;
- the class invariants `Collector.CollectorState.Valid`, `DevDashboard.AlertConsole.Valid` and `RiskEnsemble.GlobalState.Consistent`.

| member | source | states |
|---|---|---|
| Screening.QuestionFacts | src/screening/adaptiveEngine.js:1-72 | each question's table entry carries its own id; every option scores 0 to 4 and leads to a question of lower rank or to done |
| Screening.OptionIdsDistinctFacts | src/screening/adaptiveEngine.js:1-72 | every question has three options with distinct ids |
| Screening.QuestionTableClosed | src/screening/adaptiveEngine.js:1-72 | the question graph is closed and ranked, so it is acyclic; every safety_signal option ends the run |
| Screening.InitialScreeningState | src/screening/adaptiveEngine.js:74-80 | the start state is at sleep_quality with no answers and not completed, and is well formed |
| Screening.FindOption | src/screening/adaptiveEngine.js:86 | None exactly when no option has the id; otherwise the index of the first option with that id |
| Screening.ApplyAnswer | src/screening/adaptiveEngine.js:82-108 | a completed state or an unknown option id leaves the state unchanged; otherwise exactly one record of the question and the first matching option is appended, completed holds iff that option's next is done, and the cursor moves to that next question or to none |
| Screening.Run | src/screening/adaptiveEngine.js:82-108 | any sequence of answers keeps the state well formed |
| Screening.ApplyAnswerBudget | src/screening/adaptiveEngine.js:82-108 | one step never increases answers plus the longest remaining path |
| Screening.RunBudget | src/screening/adaptiveEngine.js:82-108 | a whole run never increases answers plus the longest remaining path |
| Screening.CompletesWithinSeven | src/screening/adaptiveEngine.js:1-108 | from the start, any run holds at most 7 answers, and at most 6 while still incomplete |
| Screening.RunAppendOnly | src/screening/adaptiveEngine.js:89-99 | earlier answers are never changed, only extended; a completed run stays as it is |
| Screening.ApplyAnswerFollowsGraph | src/screening/adaptiveEngine.js:82-108 | a step follows the chosen option's edge, adds one answer and adds that option's score to the total |
| Screening.RunFollowsWalk | src/screening/adaptiveEngine.js:82-108 | a run of the engine agrees with a walk of the question graph: the same end point, the same number of answers and the same score |
| Screening.ChooseOwnId | src/screening/adaptiveEngine.js:86 | looking up an option by its own id finds that option |
| Screening.DeepestOption | src/screening/adaptiveEngine.js:1-72 | every question has an option leading one rank lower, to the longest path |
| Screening.WalkStep | src/screening/adaptiveEngine.js:86-101 | a walk that starts with a valid choice is one step followed by the walk from that option's next |
| Screening.LongestWalk | src/screening/adaptiveEngine.js:1-72 | the deepest choices from any point reach done after exactly rank-many answers |
| Screening.FirstOptionScoresZero | src/screening/adaptiveEngine.js:1-72 | the first option of every question scores 0 |
| Screening.FirstChoicesWalk | src/screening/adaptiveEngine.js:1-72 | always taking the first option reaches done with a total of 0 |
| Screening.RemainingIsExact | src/screening/adaptiveEngine.js:82-108 | from any well-formed state, the deepest choices complete after exactly the remaining-path length |
| Screening.LongestRun | src/screening/adaptiveEngine.js:1-108 | some run from the start needs all 7 answers, so the bound of 7 is tight |
| Screening.FirstChoicesFromStart | src/screening/adaptiveEngine.js:1-72 | the first options from the start are great, rarely, good, connected, light |
| Screening.FirstOptionsRun | src/screening/adaptiveEngine.js:1-137 | choosing the first option each time completes after 5 answers with total 0 and tier 0 |
| Screening.AnhedoniaHighFastPath | src/screening/adaptiveEngine.js:29 | answering high at anhedonia goes straight to safety_signal without completing |
| Screening.SummaryTier | src/screening/adaptiveEngine.js:123-128 | the tier is 1 iff the total is at least 4, and 0 iff it is below 4 |
| Screening.SummarizeScreening | src/screening/adaptiveEngine.js:110-137 | the accumulator loop yields the sum of the scores, the per-category table in first-appearance order, a safety flag that holds iff some safety answer is not no, and the tier and label of the total |
| Screening.KeysLength | src/screening/adaptiveEngine.js:114 | the category table has one key per entry, in entry order |
| Screening.AddToCategoryFacts | src/screening/adaptiveEngine.js:114 | adding a score keeps the keys or appends a new one, adds the score to the table total, and changes only that category's value |
| Screening.CategoryTableKeys | src/screening/adaptiveEngine.js:111-121 | the table's keys are the categories in order of first appearance |
| Screening.FirstAppearancesFacts | src/screening/adaptiveEngine.js:111-121 | those keys are distinct and are exactly the categories of the answers |
| Screening.CategoryTableValues | src/screening/adaptiveEngine.js:114 | each category's value is the sum of the scores of its answers |
| Screening.CategoryTableSum | src/screening/adaptiveEngine.js:111-121 | the category values add up to the total score |
| Screening.ValueOfDistinct | src/screening/adaptiveEngine.js:114 | with distinct keys, looking up an entry's category gives that entry's score |
| Screening.FirstMaxIndex | src/screening/adaptiveEngine.js:140-144 | the chosen entry has the greatest score and every earlier entry scores strictly less, as a stable descending sort leaves it first |
| Screening.FocusActions | src/screening/adaptiveEngine.js:146-179 | every focus has three actions; an unknown focus gets the sleep actions |
| Screening.BuildActionPlan | src/screening/adaptiveEngine.js:139-206 | tier 2 gives the stabilization plan for the next 24 hours: the crisis protocol, the three safety actions, then the focus's first action; tier 1 gives the early plan for 72 hours, the focus actions and the 48-hour re-screen; any other tier gives the prevention plan, the focus actions and the daily check-in reminder |
| Screening.TopFocusOfAnswers | src/screening/adaptiveEngine.js:140-144 | no answers give "sleep"; otherwise, for named categories, the top focus is an answered category whose sum is at least every other category's, and every category that first appeared before it has a strictly smaller sum (the stable sort's tie-break) |
| RiskEnsemble.GetPhqRisk | src/GlobalStateProvider.jsx:6-18 | Item 9 forces tier 2 with the override reason; otherwise tier 2 iff the score is at least 20, tier 1 iff it is at least 10 but below 20, and tier 0 otherwise, NaN included |
| RiskEnsemble.PhqRiskMonotone | src/GlobalStateProvider.jsx:11-17 | a higher PHQ score never gives a lower tier |
| RiskEnsemble.PhqRiskBoundaries | src/GlobalStateProvider.jsx:11-17 | 20 and 10 belong to the higher band, 19.999 and 9.999 to the lower one, and NaN is tier 0 |
| RiskEnsemble.FinalEnsembleDecision | src/GlobalStateProvider.jsx:20-32 | a suicide class gives tier 2; a base tier of 0 with an NLP risk tier of 1 gives the passive-signal tier 1; anything else is the PHQ decision |
| RiskEnsemble.EnsembleTierBounds | src/GlobalStateProvider.jsx:20-32 | the final tier is 0, 1 or 2 and never below the PHQ tier |
| RiskEnsemble.EnsembleWithoutNlp | src/GlobalStateProvider.jsx:23-31 | with no NLP result the decision is exactly the PHQ decision |
| RiskEnsemble.SuicideOverridesItem9 | src/GlobalStateProvider.jsx:21-25 | the suicide class wins even when Item 9 is positive |
| RiskEnsemble.PassiveTierTwoIgnored | src/GlobalStateProvider.jsx:27-31 | a non-suicide prediction with risk tier 2 leaves a low PHQ tier at 0 |
| RiskEnsemble.CoercePhqScore | src/GlobalStateProvider.jsx:47-50 | a number is used as is; otherwise a score field that is not undefined, otherwise a prediction field that is not undefined, otherwise parseFloat of a string, otherwise 0; a null taken this way scores as 0 |
| RiskEnsemble.NullScoreIsLow | src/GlobalStateProvider.jsx:6-18 | a record whose score is null gets the low-score decision, whatever its prediction field |
| RiskEnsemble.EffectDecision | src/GlobalStateProvider.jsx:47-52 | the effect decides on the coerced score with Item 9 off, and the tier is always 0, 1 or 2 |
| RiskEnsemble.SelectAgents | src/GlobalStateProvider.jsx:57-66 | tier 2 selects the responder for voice and text, tier 1 the coach for both, any other tier the two companions |
| RiskEnsemble.AgentUrgencyMatchesTier | src/GlobalStateProvider.jsx:57-66 | the urgency of each selected agent equals the tier |
| RiskEnsemble.GlobalState.constructor | src/GlobalStateProvider.jsx:35-43 | nothing is scored at start and the companion agents are selected |
| RiskEnsemble.GlobalState.OnPredictionsChanged | src/GlobalStateProvider.jsx:45-71 | the inputs are untouched; while either input is missing nothing changes; once both are present the decision, plan, explainability and agents all agree with the inputs |
| RiskEnsemble.GlobalState.SetPrediction | src/GlobalStateProvider.jsx:45-71 | stores the prediction and reruns the effect, which updates the outputs only when a PHQ value is present |
| RiskEnsemble.GlobalState.SetPhqPrediction | src/GlobalStateProvider.jsx:45-71 | stores the PHQ value and reruns the effect, which updates the outputs only when a prediction is present |
| RiskEnsemble.ConsistentPlanTier | src/GlobalStateProvider.jsx:52-54 | the plan built from the effect's decision exists, carries the decision's tier, and shows that tier's own label |
| RiskUtils.RiskTierEntry | src/riskUtils.js:1-17 | the tier table has entries exactly for tiers 0, 1 and 2 |
| RiskUtils.RiskInfo | src/riskUtils.js:77 | a known tier gets its own entry and an unknown tier gets tier 0's |
| RiskUtils.RiskInfoLabelsDistinct | src/riskUtils.js:1-17 | the three known tiers have three different labels |
| RiskUtils.FeatureName | src/riskUtils.js:53 | a non-empty feature name is kept; a missing or empty one becomes Signal followed by the 1-based position |
| RiskUtils.DefaultImpact | src/riskUtils.js:54 | the default effect at position i is 15 + 3i hundredths |
| RiskUtils.BuildExplainabilitySummary | src/riskUtils.js:48-71 | no prediction gives nothing; top features give the first min(5, n) in order with their names and effects; otherwise the five fixed metrics with tier-seeded effects; never more than 5 items |
| RiskUtils.ExplainabilityNamesNonEmpty | src/riskUtils.js:48-71 | every summary item has a non-empty name |
| RiskUtils.FallbackNames | src/riskUtils.js:40-70 | the fallback items carry the labels of the five key metrics in the fixed order |
| RiskUtils.FallbackEffects | src/riskUtils.js:58-70 | for an integer seed t the fallback effects are 42+6t, 36+5t, 30+5t, 25+4t and 20+3t hundredths, strictly decreasing when t is at least 0 |
| RiskUtils.MissingImpactDefault | src/riskUtils.js:54 | a feature without a numeric impact shows 15 + 3i hundredths |
| RiskUtils.InterventionEntry | src/riskUtils.js:78-94 | the interventions table has three actions for each of tiers 0, 1 and 2 and nothing else |
| RiskUtils.Interventions | src/riskUtils.js:102 | a known tier gets its three actions and an unknown tier gets tier 0's |
| RiskUtils.PredictedClassOr | src/riskUtils.js:103 | the class is the prediction's own when non-empty, else unknown, and never empty |
| RiskUtils.ConfidenceOr | src/riskUtils.js:104 | the confidence is the prediction's own, else 0 |
| RiskUtils.SeverityOr | src/riskUtils.js:105 | the severity is the record's own when non-empty, else Not available |
| RiskUtils.BuildInterventionPlan | src/riskUtils.js:73-107 | no decision gives no plan; otherwise tier and reason are copied, label, colour, summary and actions come from the tier with a fallback to tier 0, and the defaults fill missing class, confidence and severity |
| RiskUtils.UnknownTierFallsBack | src/riskUtils.js:77-102 | a plan for an unknown tier is the tier-0 plan apart from the tier number |
| RiskUtils.PlanLabelIdentifiesTier | src/riskUtils.js:77-98 | plans for two different known tiers show different labels |
| Engagement.Insert | src/growth/engagementEngine.js:11-13 | inserting into a strictly increasing list keeps it strictly increasing, adds exactly the new day, and grows by one only when the day is new |
| Engagement.UniqueDays | src/growth/engagementEngine.js:11-13 | the result is strictly increasing, so sorted and free of duplicates, and holds exactly the input's days |
| Engagement.IncreasingUnique | src/growth/engagementEngine.js:11-13 | two strictly increasing lists with the same days are equal |
| Engagement.UniqueDaysOfSameElements | src/growth/engagementEngine.js:11-13 | the result depends only on the set of days |
| Engagement.UniqueDaysOfIncreasing | src/growth/engagementEngine.js:11-13 | a list that is already sorted and unique is returned unchanged |
| Engagement.UniqueDaysIdempotent | src/growth/engagementEngine.js:11-13 | applying the function twice equals applying it once |
| Engagement.IncreasingLength | src/growth/engagementEngine.js:11-13 | a strictly increasing list is as long as its set of days |
| Engagement.EngagementStore.constructor | src/growth/engagementEngine.js:15-18 | storage starts empty |
| Engagement.EngagementStore.Load | src/growth/engagementEngine.js:15-25 | the loaded days are always sorted and unique |
| Engagement.EngagementStore.RecordCheckIn | src/growth/engagementEngine.js:31-37 | returns and stores the unique days of the loaded days plus the current UTC date |
| Engagement.CheckInFacts | src/growth/engagementEngine.js:31-37 | the update contains today and every earlier day, grows by exactly one when today is new, and is unchanged when today was there |
| Engagement.RunIsMaximal | src/growth/engagementEngine.js:46-59 | the run from a day counts consecutive days present, stops at the first absent day, and is at most the number of days |
| Engagement.RunExact | src/growth/engagementEngine.js:46-59 | any n consecutive days followed by a gap is exactly the run |
| Engagement.StreakBound | src/growth/engagementEngine.js:56-60 | the streak never exceeds the number of distinct days |
| Engagement.StreakIgnoresDuplicates | src/growth/engagementEngine.js:41 | inputs with the same days, duplicates or order aside, have the same streak |
| Engagement.StreakMeaning | src/growth/engagementEngine.js:39-61 | the streak is 0 with a future day, and otherwise the exact length of the gap-terminated run ending today or yesterday |
| Engagement.Reverse | src/growth/engagementEngine.js:41 | reversal puts element i at position length-1-i |
| Engagement.DescendingRun | src/growth/engagementEngine.js:46-59 | in a descending list, i consecutive days from the head followed by a gap make a run of exactly i |
| Engagement.ReverseElements | src/growth/engagementEngine.js:41 | reversal keeps the days |
| Engagement.ReverseDescending | src/growth/engagementEngine.js:41 | reversing a strictly increasing list gives a strictly descending one |
| Engagement.NewestFirst | src/growth/engagementEngine.js:41 | the reversed unique days hold the input's days, strictly descending and newest first, and exist for any non-empty input |
| Engagement.ScanNewestFirst | src/growth/engagementEngine.js:42-60 | the loop counts from today, or from yesterday for the first day only; it counts nothing when the newest day is neither, and otherwise counts consecutive days from the newest up to the first day out of sequence |
| Engagement.StreakOfScan | src/growth/engagementEngine.js:39-61 | the count where the scan stops is exactly the streak: a run ending today or yesterday, or 0 |
| Engagement.CalculateStreak | src/growth/engagementEngine.js:39-61 | no days give 0; otherwise the scan of the unique days, newest first, from the local date returns the streak, never more than the number of unique days |
| Engagement.StreakAfterCheckIn | src/growth/engagementEngine.js:3-61 | with no stored day after the local date, a check-in whose UTC date is a day ahead leaves the streak at 0, and one whose UTC date is the local date or the day before gives a streak of at least 1 |
| Engagement.GetNudgeForRiskTier | src/growth/engagementEngine.js:63-75 | tier 2 and above gives the high-risk message; tier 1 chooses at a streak of 3; lower tiers choose at a streak of 5 |
| Engagement.StreakNudgeNeedsStreak | src/growth/engagementEngine.js:63-75 | a streak message is only shown below tier 2 and with a streak of at least 3 |
| SafetyEscalation.LeadingSpace | src/components/SafetyEscalationConsole.jsx:50-51 | counts exactly the leading whitespace |
| SafetyEscalation.TrailingSpace | src/components/SafetyEscalationConsole.jsx:50-51 | counts exactly the trailing whitespace |
| SafetyEscalation.TrimFacts | src/components/SafetyEscalationConsole.jsx:50-51 | trimming removes whitespace only at both ends, leaves non-whitespace at the edges, and gives the empty string iff the input is all whitespace |
| SafetyEscalation.TrimIdempotent | src/components/SafetyEscalationConsole.jsx:50-51 | trimming twice equals trimming once |
| SafetyEscalation.RemoveById | src/components/SafetyEscalationConsole.jsx:69 | keeps exactly the contacts whose id differs and never grows |
| SafetyEscalation.RemoveByIdAppend | src/components/SafetyEscalationConsole.jsx:69 | the filter works piecewise, so the survivors keep their original order |
| SafetyEscalation.RemoveUnknownId | src/components/SafetyEscalationConsole.jsx:68-72 | an unknown id leaves the list unchanged |
| SafetyEscalation.Routes | src/components/SafetyEscalationConsole.jsx:78 | one "name via channel" line per contact, in order |
| SafetyEscalation.EscalationConsole.constructor | src/components/SafetyEscalationConsole.jsx:5-28 | stored contacts or the two defaults; trusted consent as stored or true; clinical consent as stored or false; the stored last escalation or none; an empty SMS draft |
| SafetyEscalation.EscalationConsole.EditDraft | src/components/SafetyEscalationConsole.jsx:27 | replaces the draft and nothing else |
| SafetyEscalation.EscalationConsole.AddContact | src/components/SafetyEscalationConsole.jsx:48-66 | with an empty trimmed name or value nothing changes; otherwise exactly one trimmed contact is appended, earlier contacts stay, the draft resets and everything is saved |
| SafetyEscalation.EscalationConsole.RemoveContact | src/components/SafetyEscalationConsole.jsx:68-72 | the contacts become the filtered list, saved, with the flags and draft unchanged |
| SafetyEscalation.EscalationConsole.TriggerEscalation | src/components/SafetyEscalationConsole.jsx:74-83 | the payload routes to every contact when escalation is allowed and to none otherwise, routes clinically iff clinical consent and tier 2 or more, and becomes the saved last escalation |
| SafetyEscalation.EscalationConsole.ToggleTrusted | src/components/SafetyEscalationConsole.jsx:85-89 | flips only the trusted-contact consent and saves |
| SafetyEscalation.EscalationConsole.ToggleClinical | src/components/SafetyEscalationConsole.jsx:91-95 | flips only the clinical consent and saves |
| SafetyEscalation.AddThenRemove | src/components/SafetyEscalationConsole.jsx:54-72 | removing a freshly added contact by its new id restores the earlier list |
| PlanPage.Uplift | src/pages/PlanPage.jsx:34 | the uplift is 24 at tier 2, 12 at tier 1 and 0 otherwise |
| PlanPage.BuildUserTrend | src/pages/PlanPage.jsx:32-41 | seven points labelled Mon to Sun; each risk lies between the day's base risk and 95; each resilience is at least 25 and at least 82 less the risk |
| PlanPage.UserTrendMonotone | src/pages/PlanPage.jsx:32-41 | a higher support level never lowers a day's risk and never raises its resilience |
| PlanPage.TrendPeak | src/pages/PlanPage.jsx:32-41 | no day's risk exceeds 70, so the 95 cap never applies; Wednesday at tier 2 is 70 with resilience on its floor of 25 |
| PlanPage.BaseTier | src/pages/PlanPage.jsx:67 | the plan's tier, else the decision's, else the prediction's risk tier, else 0 |
| PlanPage.EffectiveTier | src/pages/PlanPage.jsx:82 | the merged tier is at least both sources and equals one of them |
| PlanPage.Progress | src/pages/PlanPage.jsx:80 | the bar is between 0 and 100, full from six answers on, and otherwise the rounded percentage of six |
| PlanPage.ProgressMonotone | src/pages/PlanPage.jsx:80 | more answers never move the bar back |
| PlanPage.ProgressSteps | src/pages/PlanPage.jsx:80 | zero to five answers show 0, 17, 33, 50, 67 and 83 percent |
| PlanPage.SafetyDecision | src/pages/PlanPage.jsx:211 | Immediate Support from tier 2, Early Support at tier 1, Routine Support below |
| PlanPage.ResourcesFollowDecision | src/pages/PlanPage.jsx:211-214 | without a safety flag the crisis resources appear exactly when the decision reads Immediate Support; a base tier of 2 always shows them |
| DemoHq.MapTierFromRiskScore | src/pages/DemoHQPage.jsx:33-37 | tier 2 iff the risk is at least 65, tier 1 iff it is at least 45 but below 65, tier 0 below 45 |
| DemoHq.MapTierMonotone | src/pages/DemoHQPage.jsx:33-37 | a higher risk never maps to a lower tier |
| DemoHq.TrendDirection | src/pages/DemoHQPage.jsx:39-45 | fewer than two points is Stable; otherwise Deteriorating iff the last risk exceeds the first by 12 or more, and Improving iff it is 12 or more below |
| DemoHq.DirectionFromEndpoints | src/pages/DemoHQPage.jsx:39-45 | trends with the same first and last risks have the same direction |
| DemoHq.DirectionReversed | src/pages/DemoHQPage.jsx:39-45 | replaying a trend backwards swaps Deteriorating and Improving and keeps Stable |
| DemoHq.DirectionAtLastStep | src/pages/DemoHQPage.jsx:103 | once the step reaches the end, the replayed direction is the whole trend's |
| DemoHq.StatusColor | src/pages/DemoHQPage.jsx:47-51 | Escalated and Needs follow-up get their own colours and every other status green |
| DemoHq.StatusFromColor | src/pages/DemoHQPage.jsx:47-51 | the colour identifies the status class: red exactly for Escalated, orange exactly for Needs follow-up, green exactly for the rest |
| DemoHq.FirstWithId | src/pages/DemoHQPage.jsx:86 | the index of the first persona with the id, or the length when none has it |
| DemoHq.FindPersona | src/pages/DemoHQPage.jsx:85-88 | the selected persona is one of the list; it has the id when some persona does, and is the first persona otherwise |
| DemoHq.CurrentPoint | src/pages/DemoHQPage.jsx:90 | the point at the step, or the last point when the step is out of range |
| DemoHq.PrimaryMilestone | src/pages/DemoHQPage.jsx:105 | the milestone at the step, clamped to the last; none exactly when there are no milestones |
| DemoHq.Gap | src/pages/DemoHQPage.jsx:184 | never negative; positive exactly when risk exceeds resilience, and then their difference |
| DemoHq.Policy | src/pages/DemoHQPage.jsx:188 | Escalate from tier 2, Intervene at tier 1, Monitor below |
| DemoHq.LiveDecision | src/pages/DemoHQPage.jsx:298 | Immediate from tier 2, Early Support at tier 1, Routine Monitoring below |
| DemoHq.LabelsAgree | src/pages/DemoHQPage.jsx:298-301 | for any live point, Escalate, Immediate and the crisis resources without a safety flag come together, exactly when the risk is at least 65 |
| DevDashboard.DashboardRawScore | src/pages/DevDashboardPage.jsx:336-337 | no PHQ value gives 0; otherwise a score that is neither null nor undefined, else such a prediction, else the value itself, parsed when a string and 0 when neither number nor string |
| DevDashboard.CurrentScore | src/pages/DevDashboardPage.jsx:338 | NaN shows 0; a number shows its nearest integer |
| DevDashboard.DashboardAgreesWithEffect | src/pages/DevDashboardPage.jsx:336-337 | the dashboard's coercion gives the provider's number exactly when the payload is not a record with a null score and a non-zero prediction |
| DevDashboard.NullScoreDisagreement | src/pages/DevDashboardPage.jsx:336-338 | on a record with a null score and prediction 25, the ensemble scores tier 0 while the dashboard shows 25 with a red bar |
| DevDashboard.IntegralScoreShown | src/pages/DevDashboardPage.jsx:338 | an integral PHQ score is shown as itself |
| DevDashboard.CurrentTier | src/pages/DevDashboardPage.jsx:343 | the decision's tier, or 0 without a decision |
| DevDashboard.RiskBadge | src/pages/DevDashboardPage.jsx:344 | SEVERE RISK at tier 2, MODERATE RISK at tier 1, STABLE otherwise |
| DevDashboard.BadgeIdentifiesTier | src/pages/DevDashboardPage.jsx:343-344 | for tiers 0 to 2 the badge tells the tiers apart |
| DevDashboard.DynamicHistory | src/pages/DevDashboardPage.jsx:346-352 | five weekly entries, the last being today with the current score |
| DevDashboard.BarColor | src/pages/DevDashboardPage.jsx:317-322 | red from 20, amber from 15, yellow from 10, green below |
| DevDashboard.BarColorMonotone | src/pages/DevDashboardPage.jsx:317-322 | a higher score never gets a milder colour |
| DevDashboard.LabelHistory | src/pages/DevDashboardPage.jsx:296-300 | same length as the history, copying each date and score |
| DevDashboard.LabelMeaning | src/pages/DevDashboardPage.jsx:299 | the first entry is BASELINE; a later one is WORSENING iff its score is strictly above the previous, and STABLE otherwise, decreases included |
| DevDashboard.LabelHistoryExtends | src/pages/DevDashboardPage.jsx:296-300 | adding an entry leaves the earlier labels unchanged |
| DevDashboard.RisingHistoryWorsens | src/pages/DevDashboardPage.jsx:346-352 | with a current score above 20 every later week is WORSENING |
| DevDashboard.ProjectMessages | src/pages/DevDashboardPage.jsx:302-307 | same length, each message reduced to its timestamp, content, sentiment and flags |
| DevDashboard.ProjectPrepend | src/pages/DevDashboardPage.jsx:302-307 | projecting a prepended list prepends the projected message |
| DevDashboard.BuildPayload | src/pages/DevDashboardPage.jsx:285-315 | the alert id joins the clock and the user id; the current score is the last history score; the history is labelled, the messages projected; the alert type, the clinical note and the four recommended actions are the fixed ones |
| DevDashboard.PayloadScoresToday | src/pages/DevDashboardPage.jsx:346-370 | the payload's current score is today's score, over five history entries |
| DevDashboard.NlpFlagMessage | src/pages/DevDashboardPage.jsx:356-362 | the flagged message carries the negated confidence to two places, else -0.85; the class as its flag, else risk-detected; and the tier's level |
| DevDashboard.DynamicMessages | src/pages/DevDashboardPage.jsx:354-363 | a present prediction whose class is not stable prepends exactly one message to the fixed ones; otherwise the fixed messages are copied unchanged |
| DevDashboard.FlaggedMessagesKeepFixed | src/pages/DevDashboardPage.jsx:354-363 | after the prepend the list has four messages and the fixed ones follow unchanged, projected too |
| DevDashboard.AlertConsole.constructor | src/pages/DevDashboardPage.jsx:328-334 | not dispatched, no modal, and the three-entry log matches that state |
| DevDashboard.AlertConsole.Dispatch | src/pages/DevDashboardPage.jsx:372-381 | afterwards dispatched, with a five-entry log all sent; a second dispatch changes nothing |
| DevDashboard.AlertConsole.SetShowModal | src/pages/DevDashboardPage.jsx:522-537 | sets only the modal flag |
| DevDashboard.InitialLogPending | src/pages/DevDashboardPage.jsx:330-334 | the initial log has pending entries after its first sent one |
| VectorPayload.ToInt32 | src/vectorai/vectorPayload.js:5 | the result is a signed 32-bit value congruent to the input modulo 2^32 |
| VectorPayload.ToInt32Congruent | src/vectorai/vectorPayload.js:5 | inputs congruent modulo 2^32 wrap to the same value |
| VectorPayload.Abs | src/vectorai/vectorPayload.js:7 | the absolute value is the input or its negation |
| VectorPayload.Utf16Units | src/vectorai/vectorPayload.js:4 | each code unit is below 65536, and a string of BMP characters is its own code units |
| VectorPayload.HashUnits | src/vectorai/vectorPayload.js:1-6 | the running hash stays a signed 32-bit value |
| VectorPayload.HashIsPolynomial | src/vectorai/vectorPayload.js:1-6 | wrapping at every step equals wrapping once the polynomial sum of 31^k times each code unit |
| VectorPayload.StableHashOf | src/vectorai/vectorPayload.js:1-8 | the hash is between 0 and 2^31 |
| VectorPayload.StableHash | src/vectorai/vectorPayload.js:1-8 | the loop returns the specified hash |
| VectorPayload.StableHashValues | src/vectorai/vectorPayload.js:1-8 | the empty string hashes to 0, a single BMP character to its code, and 2^31 arises only from a wrapped value of -2^31 |
| VectorPayload.UnitsLeqTotal | src/vectorai/vectorPayload.js:11 | code-unit order is total |
| VectorPayload.InsertKey | src/vectorai/vectorPayload.js:11 | inserting into sorted keys keeps them sorted and adds exactly that key |
| VectorPayload.SortKeys | src/vectorai/vectorPayload.js:11 | sorted by code units and a permutation of the keys |
| VectorPayload.KeysOf | src/vectorai/vectorPayload.js:11 | the keys of the metrics, in order |
| VectorPayload.RawValue | src/vectorai/vectorPayload.js:16 | an absent key reads as 0 |
| VectorPayload.Bucket | src/vectorai/vectorPayload.js:17 | every bucket index is below 12 |
| VectorPayload.AddMetric | src/vectorai/vectorPayload.js:17-19 | adding a metric keeps 12 dimensions |
| VectorPayload.Accumulate | src/vectorai/vectorPayload.js:15-20 | the accumulated vector has 12 dimensions |
| VectorPayload.SumUpdate | src/vectorai/vectorPayload.js:18-19 | adding to one cell adds to the vector's sum |
| VectorPayload.SumZeros | src/vectorai/vectorPayload.js:13 | the fresh vector sums to 0 |
| VectorPayload.AddMetricMass | src/vectorai/vectorPayload.js:17-19 | each metric adds its value plus 0.35 of it to the vector's sum |
| VectorPayload.AccumulateMass | src/vectorai/vectorPayload.js:15-20 | the vector sums to 1.35 times the total of the raw values |
| VectorPayload.ZeroMetricNoEffect | src/vectorai/vectorPayload.js:16-19 | a zero or missing value leaves the vector unchanged |
| VectorPayload.Norm | src/vectorai/vectorPayload.js:22 | the norm is never 0, because 0 falls back to 1 |
| VectorPayload.Normalise | src/vectorai/vectorPayload.js:23 | each cell is divided by the norm and fixed to five places |
| VectorPayload.AccumulateSnoc | src/vectorai/vectorPayload.js:15-20 | one more key adds exactly that key's metric |
| VectorPayload.EmbeddingOf | src/vectorai/vectorPayload.js:10-24 | the embedding always has 12 dimensions |
| VectorPayload.BuildEmbeddingFromMetrics | src/vectorai/vectorPayload.js:10-24 | the in-place array loop yields the specified embedding, of 12 dimensions |
| VectorPayload.AddToBuckets | src/vectorai/vectorPayload.js:17-19 | the array update equals the specified metric addition |
| VectorPayload.FillBuckets | src/vectorai/vectorPayload.js:13-20 | a fresh array that ends as the specified accumulation |
| VectorPayload.NoMetricsZeroEmbedding | src/vectorai/vectorPayload.js:10-24 | absent or empty metrics give the zero vector |
| VectorPayload.DotSymmetric | src/vectorai/vectorPayload.js:31-35 | the dot product is symmetric |
| VectorPayload.DotSnoc | src/vectorai/vectorPayload.js:31-35 | each loop step adds one product to the dot product |
| VectorPayload.Denominator | src/vectorai/vectorPayload.js:36 | the denominator is never 0, because 0 falls back to 1 |
| VectorPayload.CosineSimilarity | src/vectorai/vectorPayload.js:26-38 | the loop returns the specified cosine, which is 0 when either vector is empty or the lengths differ |
| VectorPayload.CosineSymmetric | src/vectorai/vectorPayload.js:26-38 | the similarity is symmetric |
| VectorPayload.BuildVectorEventWindow | src/vectorai/vectorPayload.js:40-57 | schema vector-event-v1, a tier defaulting to 0, counts of metric keys, calls and messages with absent lists counting 0, and the specified embedding |
| VectorPayload.ScoreAll | src/vectorai/vectorPayload.js:78-82 | each library case is kept with its similarity to the current embedding |
| VectorPayload.InsertBySimilarity | src/vectorai/vectorPayload.js:83 | inserting into a non-increasing list keeps it non-increasing and adds exactly that case |
| VectorPayload.SortBySimilarity | src/vectorai/vectorPayload.js:83 | the result is ordered by non-increasing similarity and is a permutation |
| VectorPayload.FindMostSimilarCases | src/vectorai/vectorPayload.js:59-84 | all three library cases, scored, as a permutation in non-increasing similarity |
| VectorPayload.InsertLeastAtEnd | src/vectorai/vectorPayload.js:83 | a case no more similar than all others goes last |
| VectorPayload.EqualSimilarityKeepsOrder | src/vectorai/vectorPayload.js:83 | when all cases are equally similar, the sort returns them in library order |
| VectorPayload.InsertKeepsTies | src/vectorai/vectorPayload.js:83 | an inserted case comes after every ranked case of the same similarity, and the other cases of that similarity keep their order |
| VectorPayload.SortIsStable | src/vectorai/vectorPayload.js:83 | for every similarity value, the cases that have it come out of the sort in the order they went in |
| Collector.ConstantValues | src/pages/CollectorPage.jsx:6-7 | the retention window is 172800000 ms and the countdown starts at 8 seconds |
| Collector.AllKeysAppend | biohealth-collector.jsx:74-75 | the keys of two group lists are the keys of each, concatenated |
| Collector.DistinctConcat | biohealth-collector.jsx:8-69 | two distinct, disjoint key lists concatenate to a distinct list |
| Collector.CatalogueKeys | biohealth-collector.jsx:8-69 | the catalogue's keys are the heart-rate, nonparametric, cosinor and sleep keys in that order |
| Collector.MetricCatalogue | biohealth-collector.jsx:8-69 | the catalogue's 36 keys (7+15+8+6) are all distinct |
| Collector.SimulatedValueRange | biohealth-collector.jsx:76 | a random draw in [0, 1) gives a value between 0 and 2 |
| Collector.SetKey | biohealth-collector.jsx:76 | a new key is appended at the end; an existing key keeps its place, the length and the key order |
| Collector.DistinctPrefix | biohealth-collector.jsx:74-75 | a key of a distinct list does not appear before its position |
| Collector.AllKeysAround | biohealth-collector.jsx:74-75 | the catalogue's keys split around any group |
| Collector.FreshKey | biohealth-collector.jsx:74-76 | in a distinct catalogue, each key is new when the nested loop reaches it |
| Collector.SetFreshKey | biohealth-collector.jsx:76 | writing a new key appends it |
| Collector.SimulateGroup | biohealth-collector.jsx:75-77 | the inner loop appends the group's keys in order, each with its simulated value |
| Collector.SimulateGroups | biohealth-collector.jsx:74-78 | the outer loop gives one entry per catalogue key, in catalogue order, each with its simulated value |
| Collector.SimulateHealthConnectData | biohealth-collector.jsx:72-80 | exactly one entry for each of the 36 catalogue keys, in order, with values drawn as twice the random number to 4 places |
| Collector.Prune | src/pages/CollectorPage.jsx:114-117 | never longer than its input, and every entry kept lies inside the retention window |
| Collector.PruneMembers | src/pages/CollectorPage.jsx:114-117 | an entry is kept iff it is in the input and newer than now less the retention window |
| Collector.PruneIsSubsequence | biohealth-collector.jsx:113-116 | the kept entries are a subsequence of the input, in order |
| Collector.PruneAppend | src/pages/CollectorPage.jsx:166-173 | pruning the new entries put before the old ones gives the surviving new entries before the surviving old ones |
| Collector.PruneNewestFirst | src/pages/CollectorPage.jsx:168-173 | an entry stamped now survives, at the front |
| Collector.HistoryAfterPoll | biohealth-collector.jsx:399-404 | after a poll the newest history entry is that poll's, and a common metric count is kept |
| Collector.PruneKeepsRecent | src/pages/CollectorPage.jsx:114-117 | pruning changes nothing iff every entry is inside the window |
| Collector.PruneLater | src/pages/CollectorPage.jsx:114-117 | pruning at two times, in either order, equals pruning at the later time |
| Collector.PruneIdempotent | biohealth-collector.jsx:113-116 | pruning twice at the same time equals pruning once |
| Collector.FmtDuration | src/pages/CollectorPage.jsx:120-123 | under 60 seconds the seconds and s; otherwise whole minutes, m, the remaining seconds below 60, and s |
| Collector.DigitsThenText | biohealth-collector.jsx:351-354 | a digit string followed by text that starts with a non-digit splits in only one way |
| Collector.DurationParts | biohealth-collector.jsx:351-354 | the text is a leading number followed by a suffix that starts with s exactly under a minute |
| Collector.SecondsPart | biohealth-collector.jsx:353 | equal suffixes of two durations of a minute or more mean equal seconds remainders |
| Collector.FmtDurationInjective | src/pages/CollectorPage.jsx:120-123 | different non-negative durations are formatted differently |
| Collector.PadStart2 | biohealth-collector.jsx:447 | strings of two or more characters are kept; shorter ones are left-padded with zeros to two |
| Collector.PadStart2Digits | biohealth-collector.jsx:447 | a number below 100 pads to two digits that read back as the number |
| Collector.CountdownClockReadsBack | biohealth-collector.jsx:447 | below 6000 seconds, the display is mm:ss whose minutes times 60 plus seconds is the countdown |
| Collector.BannerMatchesClock | src/pages/CollectorPage.jsx:228 | for 0 to 9 seconds the 00:0 banner is the same five characters as the mm:ss display |
| Collector.Tick | src/pages/CollectorPage.jsx:187 | the tick decrements a positive countdown and floors at 0 |
| Collector.TicksFloorAtZero | biohealth-collector.jsx:418 | n ticks from c give the larger of c less n and 0 |
| Collector.PollKeepsLogsValid | biohealth-collector.jsx:396-406 | a poll keeps every log within the window of the new poll time, with the poll's entry first in history |
| Collector.PollLogs | src/pages/CollectorPage.jsx:166-173 | each list becomes the pruned new entries put before the old ones, and the logs stay valid |
| Collector.CollectorState.constructor | src/pages/CollectorPage.jsx:147-154 | no metrics, empty logs, countdown 8, not collecting, never collected |
| Collector.CollectorState.StartCollect | src/pages/CollectorPage.jsx:158 | only the collecting flag is set |
| Collector.CollectorState.FinishCollect | biohealth-collector.jsx:390-407 | stores one value for each catalogue key; each log becomes the pruned new entries put before the old ones, headed in history by this poll with 36 metrics; records the time and clears the collecting flag |
| Collector.CollectorState.StorePoll | src/pages/CollectorPage.jsx:165-175 | stores the metrics, prepends and prunes the three logs, records the time and clears the collecting flag |
| Collector.CollectorState.TickCountdown | biohealth-collector.jsx:418 | the countdown ticks down, flooring at 0, and nothing else changes |
| Collector.CollectorState.ResetCountdown | src/pages/CollectorPage.jsx:181-186 | the countdown returns to 8 and nothing else changes |
| Collector.CollectorState.ClocksAgree | src/pages/CollectorPage.jsx:228 | in every valid state the page's banner and the mm:ss display of the other collector agree |

## Left out

- Storage. `localStorage` and `JSON.parse` are reduced to a `stored` field holding the parsed value or nothing. Malformed JSON and a non-array `checkInDays` or `contacts` are the "nothing" case.
- Clock and locale:
  - `Date.now()`, `new Date().toISOString()` and the `toLocale*` formatters (`fmtTime`, `fmtDateTime`, the dashboard's `now`) become parameters.
  - ISO timestamps in the collector are integer milliseconds.
  - One instant `now` stands for every `Date.now()` read of a poll: the history entry's `ts` and the cutoffs of the three `pruneOldEntries` calls (src/pages/CollectorPage.jsx:114-117, 165-175). The source reads the clock separately each time, a few milliseconds apart, so an entry near the cutoff can be kept by one read and dropped by the next; the model does not capture that.
  - Check-in days are integer day numbers. The ISO date strings sort the same way, and calendar arithmetic and daylight-saving shifts are not modelled.
  - A check-in stores the UTC date, while the streak counts back from the local date. `RecordCheckIn` and `CalculateStreak` take the two as separate parameters, and `StreakAfterCheckIn` relates them when they differ by at most a day.
- Randomness. `simulateHealthConnectData` takes its draws as a function `random`. The random contents of `simulateCallLogs` and `simulateSmsLogs` are taken as given lists of new entries.
- Timers. The 600 ms delay of `collect` splits it into `StartCollect` and `FinishCollect`. The two intervals become calls to `FinishCollect`, `ResetCountdown` and `TickCountdown`, made in any order.
- Network. The model fetches of the provider (`scoreModel`, `scorePhqModel`) are not modelled; their results arrive through `SetPrediction` and `SetPhqPrediction`. Out of scope too: the alerting and voice sessions of src/pages/ChatPage.jsx, and the speech and audio code of src/pages/HomePage.jsx.
- Floating point:
  - Numbers are exact reals, with `NaN` modelled and infinities not.
  - `Math.sqrt` and `parseFloat` are uninterpreted functions.
  - `toFixed` is decimal rounding of an exact real, and `Math.round` rounds halves up.
- Risk scores and tiers are integers. A fractional tier in a prediction is not modelled.
- Prediction records. Their fields are typed: `confidence` and `impact` are numbers or absent, and `predicted_class`, `feature` and `severity` are strings or absent. A non-array `top_features` is treated as absent. The PHQ record's `score` and `prediction` are absent, `null` or numbers; a string in either is not modelled.
- The metrics map holds numbers only. A `null` value in it is not modelled.
- Metric objects are lists of key and value pairs. Duplicate keys, which a JavaScript object cannot hold, are outside the model: with one, `BuildVectorEventWindow`'s key count and `Accumulate` would count that key twice.
- Question prompts, option labels and plan texts are held by reference, not as their literal strings. Ids, scores, categories and edges are exact.
- Screening.TopFocus: ties go to the first category entered, as the stable descending sort in the source leaves them. That ordering follows insertion order only because category names are never integer-like; JavaScript lists integer-like keys first.
- src/demo/adaptiveEngine.js, imported by the demo page, is not part of this model. The engine is modelled once, from src/screening/adaptiveEngine.js, which exports the same names.
- Ids from `Date.now()` can collide when two contacts are added within one millisecond. `AddContact` takes the id as a parameter, and `AddThenRemove` assumes a fresh one.
- Draft editing in the escalation console is one `EditDraft` method for the input fields' `onChange` handlers. The consent checkboxes of the demo and plan pages change display state only and are not modelled.
- Rendering: JSX, CSS, charts, icons, metric labels and colours, the permissions list and tabs.
- Static fixtures (the demo personas, care queue and key performance indicators) and the documentation scripts are out of scope.
- Collector.CollectorState.Valid: it does not record that the stored metrics hold 36 entries. `FinishCollect` states that in its own postcondition.
- Collector.CountdownClock: the countdown is a natural number. The class keeps it between 0 and 8.
- VectorPayload.MetricsOrEmpty: `None` stands for an undefined `metrics` only. A `null` one makes `Object.keys` throw in the source, and that exception is not modelled.
- VectorPayload.BuildVectorEventWindow: `None` stands for undefined arguments only. A `null` `metrics` (a thrown exception) and a `null` `riskTier` (kept as `null` in the event, where the model gives 0) are not modelled.
- VectorPayload.Normalise: fixes each cell to 5 places via the modelled `toFixed`. The square root is a parameter, so nothing is proved about unit length.
- VectorPayload.CosineSimilarity: the final division by the product of the square roots, fixed to 5 places, is abstracted. Only the loop's sums, the empty or unequal-length guard and symmetry are proved.
