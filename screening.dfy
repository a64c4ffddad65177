/**
 * The adaptive screening engine of src/screening/adaptiveEngine.js: a fixed
 * table of seven weighted multiple-choice questions whose options point to the
 * next question or to "done", the transition function that records one answer,
 * the fold that summarises the answers, and the action plan chosen from the
 * summary's tier and its highest-scoring category.
 */
module Screening {
  import opened JsValues

  // ------------------------------------------------------------------
  // The question table
  // ------------------------------------------------------------------

  /** The keys of `SCREENING_QUESTIONS`. */
  datatype QuestionId =
    | SleepQualityId | MoodFrequencyId | AnhedoniaId | EnergyId
    | SocialConnectionId | StressLoadId | SafetySignalId

  /** The question id as the JavaScript code spells it. */
  function Key(q: QuestionId): string
  {
    match q
    case SleepQualityId => "sleep_quality"
    case MoodFrequencyId => "mood_frequency"
    case AnhedoniaId => "anhedonia"
    case EnergyId => "energy"
    case SocialConnectionId => "social_connection"
    case StressLoadId => "stress_load"
    case SafetySignalId => "safety_signal"
  }

  /** An option's `next`: another question, or the sentinel "done". */
  datatype Next = Ask(question: QuestionId) | Done

  function NextKey(n: Next): string
  {
    match n
    case Ask(q) => Key(q)
    case Done => "done"
  }

  /** An option's id, score and successor; its label is `OptionLabel`. */
  datatype ScreeningOption = ScreeningOption(id: string, score: int, next: Next)

  /** A question's id, scoring category and options; its prompt is `Prompt`. */
  datatype Question = Question(id: QuestionId, category: string, options: seq<ScreeningOption>)

  /** The question every run starts at. */
  const StartQuestion: QuestionId := SleepQualityId

  /** `SCREENING_QUESTIONS[id]`, without its display texts. */
  function QuestionById(id: QuestionId): Question
  {
    match id
    case SleepQualityId => Question(SleepQualityId, "sleep", [
        ScreeningOption("great", 0, Ask(MoodFrequencyId)),
        ScreeningOption("mixed", 1, Ask(MoodFrequencyId)),
        ScreeningOption("poor", 2, Ask(AnhedoniaId))])
    case MoodFrequencyId => Question(MoodFrequencyId, "mood", [
        ScreeningOption("rarely", 0, Ask(EnergyId)),
        ScreeningOption("sometimes", 1, Ask(EnergyId)),
        ScreeningOption("often", 2, Ask(AnhedoniaId))])
    case AnhedoniaId => Question(AnhedoniaId, "mood", [
        ScreeningOption("none", 0, Ask(EnergyId)),
        ScreeningOption("some", 1, Ask(SocialConnectionId)),
        ScreeningOption("high", 2, Ask(SafetySignalId))])
    case EnergyId => Question(EnergyId, "function", [
        ScreeningOption("good", 0, Ask(SocialConnectionId)),
        ScreeningOption("dip", 1, Ask(SocialConnectionId)),
        ScreeningOption("crash", 2, Ask(SafetySignalId))])
    case SocialConnectionId => Question(SocialConnectionId, "social", [
        ScreeningOption("connected", 0, Ask(StressLoadId)),
        ScreeningOption("neutral", 1, Ask(StressLoadId)),
        ScreeningOption("isolated", 2, Ask(SafetySignalId))])
    case StressLoadId => Question(StressLoadId, "stress", [
        ScreeningOption("light", 0, Done),
        ScreeningOption("moderate", 1, Done),
        ScreeningOption("high", 2, Ask(SafetySignalId))])
    case SafetySignalId => Question(SafetySignalId, "safety", [
        ScreeningOption("no", 0, Done),
        ScreeningOption("uncertain", 2, Done),
        ScreeningOption("yes", 4, Done)])
  }

  /** The `prompt` of question `id`. */
  function Prompt(id: QuestionId): string
  {
    match id
    case SleepQualityId => "How has your sleep quality been over the last 7 days?"
    case MoodFrequencyId => "How often did you feel low, down, or hopeless recently?"
    case AnhedoniaId => "How hard was it to feel interest or pleasure in normal activities?"
    case EnergyId => "How would you describe your energy and concentration this week?"
    case SocialConnectionId => "How connected did you feel to people you trust?"
    case StressLoadId => "How intense was your stress load across work/school/home?"
    case SafetySignalId => "Have you had thoughts of harming yourself or feeling unsafe?"
  }

  /** The `label` of option `i` of question `id`. */
  function OptionLabel(id: QuestionId, i: nat): string
  {
    match id
    case SleepQualityId => (if i == 0 then "Consistent and restful" else if i == 1 then "Inconsistent but manageable" else "Frequent wake-ups or very little sleep")
    case MoodFrequencyId => (if i == 0 then "Rarely" else if i == 1 then "Several days" else "Most days")
    case AnhedoniaId => (if i == 0 then "No significant change" else if i == 1 then "Somewhat difficult" else "Very difficult")
    case EnergyId => (if i == 0 then "Generally steady" else if i == 1 then "Noticeable dips in focus" else "Severe fatigue most days")
    case SocialConnectionId => (if i == 0 then "Connected and supported" else if i == 1 then "Somewhat isolated" else "Very isolated")
    case StressLoadId => (if i == 0 then "Low and manageable" else if i == 1 then "Moderate but controllable" else "Overwhelming")
    case SafetySignalId => (if i == 0 then "No" else if i == 1 then "Unsure / fleeting thoughts" else "Yes, and I need support now")
  }

  /** The number of questions on the longest path from `id` to "done". */
  function Rank(id: QuestionId): nat
  {
    match id
    case SleepQualityId => 7
    case MoodFrequencyId => 6
    case AnhedoniaId => 5
    case EnergyId => 4
    case SocialConnectionId => 3
    case StressLoadId => 2
    case SafetySignalId => 1
  }

  function NextRank(n: Next): nat
  {
    match n
    case Ask(q) => Rank(q)
    case Done => 0
  }

  /** Option ids are unique within each question. */
  predicate OptionIdsDistinct(q: Question)
  {
    forall i, j :: 0 <= i < j < |q.options| ==> q.options[i].id != q.options[j].id
  }

  /** Each question offers three options with distinct ids. */
  lemma {:induction false} OptionIdsDistinctFacts(q: QuestionId)
    ensures |QuestionById(q).options| == 3 && OptionIdsDistinct(QuestionById(q))
  {
    match q
    case SleepQualityId =>
    case MoodFrequencyId =>
    case AnhedoniaId =>
    case EnergyId =>
    case SocialConnectionId =>
    case StressLoadId =>
    case SafetySignalId =>
  }

  /**
   * Question `q` carries its own id, and each of its options leads to "done" or
   * to a question of strictly smaller rank, with a score between 0 and 4.
   */
  lemma {:induction false} QuestionFacts(q: QuestionId)
    ensures QuestionById(q).id == q
    ensures forall o | o in QuestionById(q).options :: NextRank(o.next) < Rank(q) && 0 <= o.score <= 4
  {
  }

  /**
   * The whole table is consistent and acyclic (ranks strictly decrease along
   * every option), and every option of the safety question ends the run.
   */
  lemma QuestionTableClosed()
    ensures forall q :: QuestionById(q).id == q
    ensures forall q, o | o in QuestionById(q).options :: NextRank(o.next) < Rank(q) && 0 <= o.score <= 4
    ensures forall o | o in QuestionById(SafetySignalId).options :: o.next == Done
  {
    forall q ensures QuestionById(q).id == q
      && forall o | o in QuestionById(q).options :: NextRank(o.next) < Rank(q) && 0 <= o.score <= 4
    {
      QuestionFacts(q);
    }
  }

  // ------------------------------------------------------------------
  // Screening state and transitions
  // ------------------------------------------------------------------

  /**
   * A display text of the table, by reference: the prompt of a question or the
   * label of one of its options. `TextOf` spells it out.
   */
  datatype Text = PromptText(question: QuestionId) | LabelText(question: QuestionId, option: nat)

  function TextOf(t: Text): string
  {
    match t
    case PromptText(q) => Prompt(q)
    case LabelText(q, i) => OptionLabel(q, i)
  }

  /** One recorded answer; it is never changed after it is appended. */
  datatype Answer = Answer(
    questionId: QuestionId, prompt: Text, category: string,
    optionId: string, optionLabel: Text, score: int)

  datatype ScreeningState = ScreeningState(currentQuestionId: Option<QuestionId>, answers: seq<Answer>, completed: bool)

  /** A state `applyAnswer` can be given: a running state points at a question. */
  predicate WellFormed(s: ScreeningState)
  {
    s.completed || s.currentQuestionId.Some?
  }

  function InitialScreeningState(): (s: ScreeningState)
    ensures s.currentQuestionId == Some(StartQuestion) && s.answers == [] && !s.completed
    ensures WellFormed(s)
  {
    ScreeningState(Some(StartQuestion), [], false)
  }

  /** Position `i` holds the first option whose id is `optionId`. */
  predicate FirstMatch(options: seq<ScreeningOption>, optionId: string, i: int)
  {
    0 <= i < |options| && options[i].id == optionId && forall j :: 0 <= j < i ==> options[j].id != optionId
  }

  /** `options.find(entry => entry.id === optionId)`, as the position of the option found. */
  function FindOption(options: seq<ScreeningOption>, optionId: string): (r: Option<nat>)
    ensures r.None? <==> forall i :: 0 <= i < |options| ==> options[i].id != optionId
    ensures r.Some? ==> FirstMatch(options, optionId, r.value)
  {
    if options == [] then None
    else if options[0].id == optionId then Some(0)
    else match FindOption(options[1..], optionId)
      case None => None
      case Some(i) => Some(i + 1)
  }

  /** The record `applyAnswer` appends when option `i` of `q` is chosen. */
  function AnswerRecord(q: Question, i: nat): Answer
    requires i < |q.options|
  {
    var o := q.options[i];
    Answer(q.id, PromptText(q.id), q.category, o.id, LabelText(q.id, i), o.score)
  }

  /**
   * `applyAnswer`: a completed state, or an option id the current question does
   * not offer, leaves the state unchanged; otherwise the record of the first
   * option with that id is appended and the run moves to the option's `next`
   * question, or completes.
   */
  function ApplyAnswer(s: ScreeningState, optionId: string): (r: ScreeningState)
    requires WellFormed(s)
    ensures WellFormed(r)
    ensures s.completed ==> r == s
    ensures !s.completed ==>
      var q := QuestionById(s.currentQuestionId.value);
      && ((forall i | 0 <= i < |q.options| :: q.options[i].id != optionId) ==> r == s)
      && (forall i | FirstMatch(q.options, optionId, i) ::
            && r.answers == s.answers + [AnswerRecord(q, i)]
            && r.completed == (q.options[i].next == Done)
            && r.currentQuestionId == (if q.options[i].next == Done then None else Some(q.options[i].next.question)))
  {
    if s.completed then s
    else
      var q := QuestionById(s.currentQuestionId.value);
      match FindOption(q.options, optionId)
      case None => s
      case Some(i) =>
        var next := q.options[i].next;
        ScreeningState(if next == Done then None else Some(next.question), s.answers + [AnswerRecord(q, i)], next == Done)
  }

  /** The state after submitting each of `choices` in turn. */
  function Run(s: ScreeningState, choices: seq<string>): (r: ScreeningState)
    requires WellFormed(s)
    ensures WellFormed(r)
    decreases |choices|
  {
    if choices == [] then s else Run(ApplyAnswer(s, choices[0]), choices[1..])
  }

  /** How many more answers a run can take at most: the rank of its current question. */
  function Remaining(s: ScreeningState): nat
  {
    if s.completed || s.currentQuestionId.None? then 0 else Rank(s.currentQuestionId.value)
  }

  /** One transition never increases answers-so-far plus answers-still-possible. */
  lemma {:induction false} ApplyAnswerBudget(s: ScreeningState, optionId: string)
    requires WellFormed(s)
    ensures |ApplyAnswer(s, optionId).answers| + Remaining(ApplyAnswer(s, optionId)) <= |s.answers| + Remaining(s)
  {
    QuestionTableClosed();
    if !s.completed {
      var q := QuestionById(s.currentQuestionId.value);
      var found := FindOption(q.options, optionId);
      if found.Some? {
        assert q.options[found.value] in q.options;
      }
    }
  }

  /** Along any sequence of submissions, answers-so-far plus answers-still-possible never grows. */
  lemma {:induction false} RunBudget(s: ScreeningState, choices: seq<string>)
    requires WellFormed(s)
    ensures |Run(s, choices).answers| + Remaining(Run(s, choices)) <= |s.answers| + Remaining(s)
    decreases |choices|
  {
    if choices != [] {
      ApplyAnswerBudget(s, choices[0]);
      RunBudget(ApplyAnswer(s, choices[0]), choices[1..]);
    }
  }

  /**
   * Every run from the initial state takes at most 7 answers, and a run that has
   * not completed holds at most 6: the 7th answer always completes it.
   */
  lemma {:induction false} CompletesWithinSeven(choices: seq<string>)
    ensures |Run(InitialScreeningState(), choices).answers| <= 7
    ensures !Run(InitialScreeningState(), choices).completed ==> |Run(InitialScreeningState(), choices).answers| <= 6
  {
    RunBudget(InitialScreeningState(), choices);
  }

  /** History is append-only: earlier answers are kept, in order, by every later state. */
  lemma {:induction false} RunAppendOnly(s: ScreeningState, choices: seq<string>)
    requires WellFormed(s)
    ensures s.answers <= Run(s, choices).answers
    ensures s.completed ==> Run(s, choices) == s
    decreases |choices|
  {
    if choices != [] {
      var t := ApplyAnswer(s, choices[0]);
      RunAppendOnly(t, choices[1..]);
      assert s.answers <= t.answers;
    }
  }

  // ------------------------------------------------------------------
  // The question graph
  // ------------------------------------------------------------------

  /** The option of question `q` that `optionId` selects, if any. */
  function Choose(q: QuestionId, optionId: string): Option<ScreeningOption>
  {
    var options := QuestionById(q).options;
    match FindOption(options, optionId)
    case None => None
    case Some(i) => Some(options[i])
  }

  /** Where a walk through the question graph stands: the next question, how many answers and their score. */
  datatype Position = Position(at: Next, answered: nat, score: int)

  /**
   * Following `choices` through the question graph from `n`: a choice the
   * current question does not offer is skipped, and "done" absorbs the rest.
   */
  function Walk(n: Next, choices: seq<string>): Position
    decreases |choices|
  {
    if choices == [] || n == Done then Position(n, 0, 0)
    else match Choose(n.question, choices[0])
      case None => Walk(n, choices[1..])
      case Some(o) =>
        var p := Walk(o.next, choices[1..]);
        Position(p.at, p.answered + 1, p.score + o.score)
  }

  /** The question a state waits on, or "done". */
  function Cursor(s: ScreeningState): Next
  {
    if s.completed || s.currentQuestionId.None? then Done else Ask(s.currentQuestionId.value)
  }

  /** One answer moves the state exactly as one step of the graph walk. */
  lemma {:induction false} ApplyAnswerFollowsGraph(s: ScreeningState, optionId: string)
    requires WellFormed(s) && !s.completed
    ensures var r := ApplyAnswer(s, optionId);
      match Choose(s.currentQuestionId.value, optionId)
      case None => r == s
      case Some(o) =>
        && Cursor(r) == o.next
        && |r.answers| == |s.answers| + 1
        && TotalScore(r.answers) == TotalScore(s.answers) + o.score
  {
    var r := ApplyAnswer(s, optionId);
    var q := QuestionById(s.currentQuestionId.value);
    match FindOption(q.options, optionId)
    case None =>
    case Some(i) =>
      assert r.answers == s.answers + [AnswerRecord(q, i)];
      assert r.answers[..|r.answers| - 1] == s.answers;
  }

  /**
   * A run of `Run` and a walk of the graph agree: same end point, and the walk
   * counts exactly the answers the run appends and their total score.
   */
  lemma {:induction false} RunFollowsWalk(s: ScreeningState, choices: seq<string>)
    requires WellFormed(s)
    ensures var r := Run(s, choices);
      && |r.answers| >= |s.answers|
      && Walk(Cursor(s), choices) == Position(Cursor(r), |r.answers| - |s.answers|, TotalScore(r.answers) - TotalScore(s.answers))
    decreases |choices|
  {
    if choices != [] {
      var t := ApplyAnswer(s, choices[0]);
      RunFollowsWalk(t, choices[1..]);
      if !s.completed {
        ApplyAnswerFollowsGraph(s, choices[0]);
      }
    }
  }

  /** Every option a question offers is chosen by its own id. */
  lemma {:induction false} ChooseOwnId(q: QuestionId, i: nat)
    requires i < |QuestionById(q).options|
    ensures Choose(q, QuestionById(q).options[i].id) == Some(QuestionById(q).options[i])
  {
    OptionIdsDistinctFacts(q);
    assert FirstMatch(QuestionById(q).options, QuestionById(q).options[i].id, i);
  }

  /** The position, within its question, of the option that leads to a question one rank below. */
  function DeepestOption(q: QuestionId): (i: nat)
    ensures i < |QuestionById(q).options|
    ensures NextRank(QuestionById(q).options[i].next) == Rank(q) - 1
  {
    match q
    case SleepQualityId => 0
    case MoodFrequencyId => 2
    case AnhedoniaId => 0
    case EnergyId => 0
    case SocialConnectionId => 0
    case StressLoadId => 2
    case SafetySignalId => 0
  }

  /** The choices that follow `DeepestOption` from `n` to "done". */
  function LongestChoices(n: Next): seq<string>
    decreases NextRank(n)
  {
    match n
    case Done => []
    case Ask(q) =>
      var o := QuestionById(q).options[DeepestOption(q)];
      [o.id] + LongestChoices(o.next)
  }

  /** The choices that take the first option of every question from `n` to "done". */
  function FirstChoices(n: Next): seq<string>
    decreases NextRank(n)
  {
    match n
    case Done => []
    case Ask(q) =>
      OptionIdsDistinctFacts(q);
      QuestionFacts(q);
      var o := QuestionById(q).options[0];
      assert o in QuestionById(q).options;
      [o.id] + FirstChoices(o.next)
  }

  /** One step of a walk from a question that offers the chosen option. */
  lemma {:induction false} WalkStep(q: QuestionId, c: string, cs: seq<string>, o: ScreeningOption)
    requires Choose(q, c) == Some(o)
    ensures Walk(Ask(q), [c] + cs) == var p := Walk(o.next, cs); Position(p.at, p.answered + 1, p.score + o.score)
  {
    assert ([c] + cs)[0] == c && ([c] + cs)[1..] == cs;
  }

  /** Following the deepest option from `n` ends the run after exactly `NextRank(n)` answers. */
  lemma {:induction false} LongestWalk(n: Next)
    ensures Walk(n, LongestChoices(n)).at == Done
    ensures Walk(n, LongestChoices(n)).answered == NextRank(n)
    decreases NextRank(n)
  {
    match n
    case Done =>
    case Ask(q) =>
      var i := DeepestOption(q);
      var o := QuestionById(q).options[i];
      ChooseOwnId(q, i);
      WalkStep(q, o.id, LongestChoices(o.next), o);
      LongestWalk(o.next);
  }

  /** The first option of every question scores 0. */
  lemma {:induction false} FirstOptionScoresZero(q: QuestionId)
    ensures |QuestionById(q).options| > 0 && QuestionById(q).options[0].score == 0
  {
    OptionIdsDistinctFacts(q);
  }

  /** Taking the first option everywhere from `n` reaches "done" with a score of 0. */
  lemma {:induction false} FirstChoicesWalk(n: Next)
    ensures Walk(n, FirstChoices(n)) == Position(Done, |FirstChoices(n)|, 0)
    decreases NextRank(n)
  {
    match n
    case Done =>
    case Ask(q) =>
      FirstOptionScoresZero(q);
      QuestionFacts(q);
      var o := QuestionById(q).options[0];
      assert o in QuestionById(q).options;
      ChooseOwnId(q, 0);
      WalkStep(q, o.id, FirstChoices(o.next), o);
      FirstChoicesWalk(o.next);
  }

  /**
   * `Remaining` is exact: from any state, following the deepest options
   * completes the run after exactly `Remaining(s)` more answers.
   */
  lemma {:induction false} RemainingIsExact(s: ScreeningState)
    requires WellFormed(s)
    ensures var r := Run(s, LongestChoices(Cursor(s)));
      r.completed && |r.answers| == |s.answers| + Remaining(s)
  {
    RunFollowsWalk(s, LongestChoices(Cursor(s)));
    LongestWalk(Cursor(s));
  }

  /** So the bound of `CompletesWithinSeven` is reached: one run from the start takes 7 answers. */
  lemma LongestRun()
    ensures var r := Run(InitialScreeningState(), LongestChoices(Ask(StartQuestion)));
      r.completed && |r.answers| == 7
  {
    RemainingIsExact(InitialScreeningState());
  }

  /** The first option of every question, from the start: great, rarely, good, connected, light. */
  lemma FirstChoicesFromStart()
    ensures FirstChoices(Ask(StartQuestion)) == ["great", "rarely", "good", "connected", "light"]
  {
    var s := QuestionById(StressLoadId).options[0];
    assert FirstChoices(Ask(StressLoadId)) == ["light"] by {
      assert s.next == Done;
    }
    assert FirstChoices(Ask(SocialConnectionId)) == ["connected", "light"];
    assert FirstChoices(Ask(EnergyId)) == ["good", "connected", "light"];
    assert FirstChoices(Ask(MoodFrequencyId)) == ["rarely", "good", "connected", "light"];
  }

  /** A user who always picks the first option completes after 5 answers with a total of 0, at tier 0. */
  lemma FirstOptionsRun()
    ensures var r := Run(InitialScreeningState(), ["great", "rarely", "good", "connected", "light"]);
      r.completed && |r.answers| == 5 && TotalScore(r.answers) == 0 && SummaryTier(TotalScore(r.answers)) == 0
  {
    FirstChoicesFromStart();
    RunFollowsWalk(InitialScreeningState(), FirstChoices(Ask(StartQuestion)));
    FirstChoicesWalk(Ask(StartQuestion));
  }

  /** Answering "Very difficult" on the anhedonia question jumps straight to the safety question. */
  lemma {:induction false} AnhedoniaHighFastPath(s: ScreeningState)
    requires !s.completed && s.currentQuestionId == Some(AnhedoniaId)
    ensures ApplyAnswer(s, "high").currentQuestionId == Some(SafetySignalId)
    ensures !ApplyAnswer(s, "high").completed
  {
    assert FirstMatch(QuestionById(AnhedoniaId).options, "high", 2);
  }

  // ------------------------------------------------------------------
  // Summary
  // ------------------------------------------------------------------

  /** One entry of `categoryScores`; the sequence keeps the insertion order of the JavaScript object. */
  datatype CategoryScore = CategoryScore(category: string, score: int)

  datatype ScreeningSummary = ScreeningSummary(
    totalScore: int, categoryScores: seq<CategoryScore>, safetyFlag: bool, tier: int, riskLabel: string)

  function TotalScore(answers: seq<Answer>): int
    decreases |answers|
  {
    if answers == [] then 0 else TotalScore(answers[..|answers| - 1]) + answers[|answers| - 1].score
  }

  /** The sum of the scores of the answers in category `c`. */
  function CategorySum(answers: seq<Answer>, c: string): int
    decreases |answers|
  {
    if answers == [] then 0
    else
      var last := answers[|answers| - 1];
      CategorySum(answers[..|answers| - 1], c) + (if last.category == c then last.score else 0)
  }

  /** `acc.categories[c] = (acc.categories[c] || 0) + v` on an insertion-ordered table. */
  function AddToCategory(table: seq<CategoryScore>, c: string, v: int): seq<CategoryScore>
    decreases |table|
  {
    if table == [] then [CategoryScore(c, v)]
    else if table[0].category == c then [CategoryScore(c, table[0].score + v)] + table[1..]
    else [table[0]] + AddToCategory(table[1..], c, v)
  }

  /** The category table the fold builds from `answers`. */
  function CategoryTable(answers: seq<Answer>): seq<CategoryScore>
    decreases |answers|
  {
    if answers == [] then []
    else
      var last := answers[|answers| - 1];
      AddToCategory(CategoryTable(answers[..|answers| - 1]), last.category, last.score)
  }

  predicate SafetySignal(a: Answer)
  {
    a.category == "safety" && a.optionId != "no"
  }

  predicate HasSafetySignal(answers: seq<Answer>)
  {
    exists i :: 0 <= i < |answers| && SafetySignal(answers[i])
  }

  /** The summary tier: 1 from a total of 4 upwards, else 0. */
  function SummaryTier(total: int): (t: int)
    ensures t == 1 <==> total >= 4
    ensures t == 0 <==> total < 4
  {
    if total >= 4 then 1 else 0
  }

  /**
   * `summarizeScreening`: folds the answers into the total, the per-category
   * sums, the safety flag and the tier with its label.
   */
  method SummarizeScreening(answers: seq<Answer>) returns (summary: ScreeningSummary)
    ensures summary.totalScore == TotalScore(answers)
    ensures summary.categoryScores == CategoryTable(answers)
    ensures summary.safetyFlag <==> HasSafetySignal(answers)
    ensures summary.tier == SummaryTier(TotalScore(answers))
    ensures summary.riskLabel == (if TotalScore(answers) >= 4 then "Moderate" else "Low")
  {
    var score := 0;
    var categories: seq<CategoryScore> := [];
    var safetyFlag := false;
    var i := 0;
    while i < |answers|
      invariant 0 <= i <= |answers|
      invariant score == TotalScore(answers[..i])
      invariant categories == CategoryTable(answers[..i])
      invariant safetyFlag <==> HasSafetySignal(answers[..i])
    {
      var answer := answers[i];
      assert answers[..i + 1][..i] == answers[..i];
      score := score + answer.score;
      categories := AddToCategory(categories, answer.category, answer.score);
      if answer.category == "safety" && answer.optionId != "no" {
        safetyFlag := true;
      }
      assert HasSafetySignal(answers[..i + 1]) <==> HasSafetySignal(answers[..i]) || SafetySignal(answer) by {
        if HasSafetySignal(answers[..i + 1]) {
          var j :| 0 <= j <= i && SafetySignal(answers[..i + 1][j]);
          if j < i { assert answers[..i][j] == answers[..i + 1][j]; }
        }
        if HasSafetySignal(answers[..i]) {
          var j :| 0 <= j < i && SafetySignal(answers[..i][j]);
          assert answers[..i + 1][j] == answers[..i][j];
        }
        assert answers[..i + 1][i] == answer;
      }
      i := i + 1;
    }
    assert answers[..i] == answers;
    var tier := 0;
    var riskLabel := "Low";
    if score >= 4 {
      tier := 1;
      riskLabel := "Moderate";
    }
    summary := ScreeningSummary(score, categories, safetyFlag, tier, riskLabel);
  }

  // ------------------------------------------------------------------
  // Properties of the category table
  // ------------------------------------------------------------------

  function Keys(table: seq<CategoryScore>): seq<string>
    decreases |table|
  {
    if table == [] then [] else [table[0].category] + Keys(table[1..])
  }

  /** The score stored under `c`, or 0 when the table has no entry for `c`. */
  function ValueOf(table: seq<CategoryScore>, c: string): int
    decreases |table|
  {
    if table == [] then 0 else if table[0].category == c then table[0].score else ValueOf(table[1..], c)
  }

  function TableSum(table: seq<CategoryScore>): int
    decreases |table|
  {
    if table == [] then 0 else table[0].score + TableSum(table[1..])
  }

  predicate Distinct(xs: seq<string>)
  {
    forall i, j :: 0 <= i < j < |xs| ==> xs[i] != xs[j]
  }

  /** Some answer belongs to category `c`. */
  predicate HasCategory(answers: seq<Answer>, c: string)
  {
    exists j :: 0 <= j < |answers| && answers[j].category == c
  }

  /** The categories of `answers`, each once, in order of first appearance. */
  function FirstAppearances(answers: seq<Answer>): seq<string>
    decreases |answers|
  {
    if answers == [] then []
    else
      var earlier := FirstAppearances(answers[..|answers| - 1]);
      var c := answers[|answers| - 1].category;
      if c in earlier then earlier else earlier + [c]
  }

  lemma {:induction false} KeysLength(table: seq<CategoryScore>)
    ensures |Keys(table)| == |table|
    ensures forall i :: 0 <= i < |table| ==> Keys(table)[i] == table[i].category
    decreases |table|
  {
    if table != [] {
      KeysLength(table[1..]);
    }
  }

  /** Adding to an existing category keeps the key order; a new category is appended last. */
  lemma {:induction false} AddToCategoryFacts(table: seq<CategoryScore>, c: string, v: int)
    ensures Keys(AddToCategory(table, c, v)) == if c in Keys(table) then Keys(table) else Keys(table) + [c]
    ensures TableSum(AddToCategory(table, c, v)) == TableSum(table) + v
    ensures forall k :: ValueOf(AddToCategory(table, c, v), k) == ValueOf(table, k) + (if k == c then v else 0)
    decreases |table|
  {
    if table != [] && table[0].category != c {
      AddToCategoryFacts(table[1..], c, v);
      assert Keys(table) == [table[0].category] + Keys(table[1..]);
    }
  }

  /** The table's keys are the answers' categories in order of first appearance. */
  lemma {:induction false} CategoryTableKeys(answers: seq<Answer>)
    ensures Keys(CategoryTable(answers)) == FirstAppearances(answers)
    decreases |answers|
  {
    if answers != [] {
      var prefix := answers[..|answers| - 1];
      var last := answers[|answers| - 1];
      CategoryTableKeys(prefix);
      AddToCategoryFacts(CategoryTable(prefix), last.category, last.score);
    }
  }

  /** The first-appearance list holds each category of the answers exactly once. */
  lemma {:induction false} FirstAppearancesFacts(answers: seq<Answer>)
    ensures Distinct(FirstAppearances(answers))
    ensures forall c :: c in FirstAppearances(answers) <==> HasCategory(answers, c)
    decreases |answers|
  {
    if answers != [] {
      var prefix := answers[..|answers| - 1];
      FirstAppearancesFacts(prefix);
      forall c ensures HasCategory(answers, c) <==> HasCategory(prefix, c) || answers[|answers| - 1].category == c
      {
        if HasCategory(answers, c) {
          var j :| 0 <= j < |answers| && answers[j].category == c;
          if j < |prefix| { assert prefix[j] == answers[j]; }
        }
        if HasCategory(prefix, c) {
          var j :| 0 <= j < |prefix| && prefix[j].category == c;
          assert answers[j] == prefix[j];
        }
      }
    }
  }

  /** Each category's entry is the sum of its answers' scores; unanswered categories read as 0. */
  lemma {:induction false} CategoryTableValues(answers: seq<Answer>, c: string)
    ensures ValueOf(CategoryTable(answers), c) == CategorySum(answers, c)
    decreases |answers|
  {
    if answers != [] {
      var prefix := answers[..|answers| - 1];
      var last := answers[|answers| - 1];
      CategoryTableValues(prefix, c);
      AddToCategoryFacts(CategoryTable(prefix), last.category, last.score);
    }
  }

  /** The category sums add up to the total score. */
  lemma {:induction false} CategoryTableSum(answers: seq<Answer>)
    ensures TableSum(CategoryTable(answers)) == TotalScore(answers)
    decreases |answers|
  {
    if answers != [] {
      var prefix := answers[..|answers| - 1];
      var last := answers[|answers| - 1];
      CategoryTableSum(prefix);
      AddToCategoryFacts(CategoryTable(prefix), last.category, last.score);
    }
  }

  /** With distinct keys, the entry at position `i` is the value stored under its key. */
  lemma {:induction false} ValueOfDistinct(table: seq<CategoryScore>, i: nat)
    requires i < |table| && Distinct(Keys(table))
    ensures ValueOf(table, table[i].category) == table[i].score
    decreases |table|
  {
    KeysLength(table);
    if i > 0 {
      assert table[0].category == Keys(table)[0] != Keys(table)[i] == table[i].category;
      KeysLength(table[1..]);
      assert Keys(table[1..]) == Keys(table)[1..];
      ValueOfDistinct(table[1..], i - 1);
    }
  }

  // ------------------------------------------------------------------
  // Action plan
  // ------------------------------------------------------------------

  datatype ActionPlan = ActionPlan(title: string, window: string, actions: seq<string>)

  /**
   * The position of the first entry with the highest score: the entry a stable
   * descending sort puts first.
   */
  function FirstMaxIndex(table: seq<CategoryScore>): (i: nat)
    requires |table| > 0
    ensures i < |table|
    ensures forall j :: 0 <= j < |table| ==> table[j].score <= table[i].score
    ensures forall j :: 0 <= j < i ==> table[j].score < table[i].score
    decreases |table|
  {
    if |table| == 1 then 0
    else
      var k := FirstMaxIndex(table[1..]) + 1;
      if table[0].score >= table[k].score then 0 else k
  }

  /** `topFocus`: the leading category, or "sleep" when there is none. */
  function TopFocus(categoryScores: seq<CategoryScore>): string
  {
    if categoryScores == [] then "sleep"
    else
      var name := categoryScores[FirstMaxIndex(categoryScores)].category;
      if name == "" then "sleep" else name
  }

  const SleepActions: seq<string> := [
    "Set a fixed sleep window for the next 3 nights (+/- 30 minutes).",
    "Stop phone scrolling 45 minutes before bedtime.",
    "Use a 6-minute wind-down routine: breathing, hydration, and lights down."]

  const MoodActions: seq<string> := [
    "Book two 15-minute mood breaks in your calendar tomorrow.",
    "Write one sentence naming the toughest feeling and one needed support.",
    "Do one low-effort activity that usually gives mild relief."]

  const StressActions: seq<string> := [
    "Run a 20-minute focus sprint, then take a 5-minute walk break.",
    "Move one non-essential task from today to later this week.",
    "Send a short message requesting help on one current stress point."]

  const SocialActions: seq<string> := [
    "Send a check-in to one trusted person now.",
    "Schedule one in-person or voice connection in the next 48 hours.",
    "Use the care circle feature if isolation continues tomorrow."]

  const FunctionActions: seq<string> := [
    "Start the day with one easy task to build momentum.",
    "Use a 25/5 focus block for your highest-value work.",
    "Avoid multitasking in the first 90 minutes of tomorrow."]

  const SafetyActions: seq<string> := [
    "Open immediate support resources and keep them pinned.",
    "Notify trusted contact with a predefined message.",
    "Escalate to crisis support now if you feel unsafe."]

  const CrisisProtocol: string := "Start crisis-safe protocol and do not stay alone if unsafe."
  const RescreenReminder: string := "Re-screen in 48 hours to confirm trend direction."
  const CheckInReminder: string := "Keep daily check-ins to sustain your current baseline."

  /** `planByFocus[topFocus] || planByFocus.sleep`: three actions for every focus. */
  function FocusActions(focus: string): (actions: seq<string>)
    ensures |actions| == 3
    ensures focus !in {"sleep", "mood", "stress", "social", "function", "safety"} ==> actions == SleepActions
  {
    if focus == "sleep" then SleepActions
    else if focus == "mood" then MoodActions
    else if focus == "stress" then StressActions
    else if focus == "social" then SocialActions
    else if focus == "function" then FunctionActions
    else if focus == "safety" then SafetyActions
    else SleepActions
  }

  /**
   * `buildActionPlan`: tier 2 gives the 24-hour stabilisation plan (crisis line,
   * the safety actions, one focus action), tier 1 the 72-hour plan ending in the
   * re-screen reminder, any other tier the 7-day plan ending in the check-in reminder.
   */
  function BuildActionPlan(summary: ScreeningSummary): (plan: ActionPlan)
    ensures summary.tier == 2 ==>
      && plan.title == "Immediate Stabilization Plan" && plan.window == "Next 24 hours"
      && |plan.actions| == 5 && plan.actions[0] == CrisisProtocol
      && plan.actions[1..4] == SafetyActions
      && plan.actions[4] == FocusActions(TopFocus(summary.categoryScores))[0]
    ensures summary.tier == 1 ==>
      && plan.title == "Early Intervention Plan" && plan.window == "Next 72 hours"
      && |plan.actions| == 4 && plan.actions[..3] == FocusActions(TopFocus(summary.categoryScores))
      && plan.actions[3] == RescreenReminder
    ensures summary.tier != 1 && summary.tier != 2 ==>
      && plan.title == "Prevention Momentum Plan" && plan.window == "Next 7 days"
      && |plan.actions| == 4 && plan.actions[..3] == FocusActions(TopFocus(summary.categoryScores))
      && plan.actions[3] == CheckInReminder
  {
    var baseActions := FocusActions(TopFocus(summary.categoryScores));
    if summary.tier == 2 then
      ActionPlan("Immediate Stabilization Plan", "Next 24 hours", [CrisisProtocol] + SafetyActions + baseActions[..1])
    else if summary.tier == 1 then
      ActionPlan("Early Intervention Plan", "Next 72 hours", baseActions + [RescreenReminder])
    else
      ActionPlan("Prevention Momentum Plan", "Next 7 days", baseActions + [CheckInReminder])
  }

  /**
   * The focus of the plan built from a set of answers: "sleep" when there are
   * none; otherwise an answered category whose score sum is maximal, and every
   * category that first appeared earlier has a smaller sum.
   */
  lemma {:induction false} TopFocusOfAnswers(answers: seq<Answer>)
    requires forall j :: 0 <= j < |answers| ==> answers[j].category != ""
    ensures answers == [] ==> TopFocus(CategoryTable(answers)) == "sleep"
    ensures answers != [] ==> HasCategory(answers, TopFocus(CategoryTable(answers)))
    ensures forall j :: 0 <= j < |answers| ==>
      CategorySum(answers, answers[j].category) <= CategorySum(answers, TopFocus(CategoryTable(answers)))
    ensures var order := FirstAppearances(answers); var top := TopFocus(CategoryTable(answers));
      forall k, m :: 0 <= k < m < |order| && order[m] == top ==> CategorySum(answers, order[k]) < CategorySum(answers, top)
  {
    if answers != [] {
      var table := CategoryTable(answers);
      var order := FirstAppearances(answers);
      CategoryTableKeys(answers);
      FirstAppearancesFacts(answers);
      KeysLength(table);
      assert answers[0].category in order;
      assert |table| > 0;
      var m0 := FirstMaxIndex(table);
      var f := table[m0].category;
      assert f == Keys(table)[m0] && f in order;
      assert f != "";
      assert TopFocus(table) == f;
      ValueOfDistinct(table, m0);
      CategoryTableValues(answers, f);
      forall j | 0 <= j < |answers|
        ensures CategorySum(answers, answers[j].category) <= CategorySum(answers, f)
      {
        var c := answers[j].category;
        assert c in Keys(table);
        var i :| 0 <= i < |Keys(table)| && Keys(table)[i] == c;
        ValueOfDistinct(table, i);
        CategoryTableValues(answers, c);
      }
      forall k, m | 0 <= k < m < |order| && order[m] == f
        ensures CategorySum(answers, order[k]) < CategorySum(answers, f)
      {
        assert order[m] == order[m0];
        assert m == m0;
        ValueOfDistinct(table, k);
        CategoryTableValues(answers, order[k]);
      }
    }
  }
}
