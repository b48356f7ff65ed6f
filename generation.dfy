/**
 * Quiz generation: the retry loop with exponential backoff, the five prompt
 * builders, one generation call that insists on 15 questions, the dispatch on
 * game mode, the windowed task runner and the fixed 30-entry plan.
 *
 * The text-completion model is the parameter `oracle`: given a prompt and the
 * attempt number it yields the raw text or a failure. `Date.now()` is the
 * parameter `now` (or `clock`, one reading per task).
 */
module Generation {

  import opened Wrappers
  import opened JsLib
  import opened Constants
  import opened Sanitizer

  // ---------------------------------------------------------------------
  // withRetry
  // ---------------------------------------------------------------------

  function Pow2(k: nat): (r: nat)
    ensures r >= 1
  {
    if k == 0 then 1 else 2 * Pow2(k - 1)
  }

  /**
   * The number of calls withRetry makes when it reaches attempt `attempt`:
   * it stops at the first success or after attempt `maxRetries`.
   */
  function RetryCalls<T, E>(fn: nat -> Result<T, E>, maxRetries: nat, attempt: nat): (calls: nat)
    requires attempt <= maxRetries
    decreases maxRetries - attempt
    ensures attempt < calls <= maxRetries + 1
    ensures fn(calls - 1).Ok? || calls == maxRetries + 1
  {
    if fn(attempt).Ok? || attempt == maxRetries then attempt + 1
    else RetryCalls(fn, maxRetries, attempt + 1)
  }

  /** Every call before the last one that withRetry makes from `attempt` on failed. */
  lemma {:induction false} RetryCallsFailBeforeLast<T, E>(fn: nat -> Result<T, E>, maxRetries: nat, attempt: nat)
    requires attempt <= maxRetries
    decreases maxRetries - attempt
    ensures forall k :: attempt <= k < RetryCalls(fn, maxRetries, attempt) - 1 ==> fn(k).Err?
  {
    if !(fn(attempt).Ok? || attempt == maxRetries) {
      RetryCallsFailBeforeLast(fn, maxRetries, attempt + 1);
    }
  }

  /** What withRetry returns: the outcome of its last call. */
  function RetryOutcome<T, E>(fn: nat -> Result<T, E>, maxRetries: nat): Result<T, E>
  {
    fn(RetryCalls(fn, maxRetries, 0) - 1)
  }

  /**
   * withRetry. Call k of `fn` is `fn(k)`; `delays[k]` is the pause after
   * failed call k. A success is returned at once; after `maxRetries + 1`
   * failures the last error is returned.
   */
  method WithRetry<T, E>(fn: nat -> Result<T, E>, maxRetries: nat, baseDelay: nat)
      returns (r: Result<T, E>, calls: nat, delays: seq<nat>)
    ensures 1 <= calls <= maxRetries + 1
    ensures r == fn(calls - 1)
    ensures forall k :: 0 <= k < calls - 1 ==> fn(k).Err?
    ensures r.Err? ==> calls == maxRetries + 1
    ensures |delays| == calls - 1
    ensures forall k :: 0 <= k < |delays| ==> delays[k] == baseDelay * Pow2(k)
    ensures calls == RetryCalls(fn, maxRetries, 0)
  {
    var attempt: nat := 0;
    delays := [];
    while true
      invariant attempt <= maxRetries
      invariant forall k :: 0 <= k < attempt ==> fn(k).Err?
      invariant RetryCalls(fn, maxRetries, attempt) == RetryCalls(fn, maxRetries, 0)
      invariant |delays| == attempt
      invariant forall k :: 0 <= k < attempt ==> delays[k] == baseDelay * Pow2(k)
      decreases maxRetries - attempt
    {
      var result := fn(attempt);
      if result.Ok? || attempt == maxRetries {
        assert RetryCalls(fn, maxRetries, attempt) == attempt + 1;
        return result, attempt + 1, delays;
      }
      assert RetryCalls(fn, maxRetries, attempt) == RetryCalls(fn, maxRetries, attempt + 1);
      delays := delays + [baseDelay * Pow2(attempt)];
      attempt := attempt + 1;
    }
  }

  /** A failed outcome of withRetry means every one of its `maxRetries + 1` calls failed. */
  lemma RetryFailsOnlyWhenAllFail<T, E>(fn: nat -> Result<T, E>, maxRetries: nat)
    ensures RetryOutcome(fn, maxRetries).Err? <==> forall k :: 0 <= k <= maxRetries ==> fn(k).Err?
    ensures RetryOutcome(fn, maxRetries).Ok? ==>
      exists k :: 0 <= k <= maxRetries && fn(k).Ok? && RetryOutcome(fn, maxRetries) == fn(k)
  {
    var calls := RetryCalls(fn, maxRetries, 0);
    RetryCallsFailBeforeLast(fn, maxRetries, 0);
    if RetryOutcome(fn, maxRetries).Ok? {
      assert fn(calls - 1).Ok?;
    }
  }

  // ---------------------------------------------------------------------
  // Prompt builders
  // ---------------------------------------------------------------------

  /** getLevelGuidelines; the switch has no default, so an unknown level renders as "undefined". */
  function LevelGuidelines(level: string): string
  {
    if level == "A1" then "simple grammar, everyday words, short explanations"
    else if level == "A2" then "slightly more complex grammar, basic connectors, everyday contexts"
    else if level == "B1" then "intermediate grammar, common idioms, workplace/school contexts, more detail in explanations"
    else if level == "B2" then "upper-intermediate grammar, academic/workplace vocabulary, longer explanations with nuance"
    else if level == "C1" then "advanced grammar, complex idioms, academic and professional vocabulary, nuanced explanations"
    else if level == "C2" then "near-native proficiency, highly precise vocabulary, academic/technical contexts, very detailed explanations"
    else "undefined"
  }

  const STANDARD_RULES: string :=
    "- Return ONLY a valid JSON array\n- NO markdown, NO code blocks, NO extra text\n- Start with [ and end with ]\n"
    + "- EXACTLY 15 questions\n"
    + "- Each question MUST have: question, options (array of 4 strings), correctIndex (0-3), clue, explanation"

  const READING_RULES: string :=
    "- Return ONLY a valid JSON array\n- NO markdown, NO code blocks, NO extra text, NO explanations before or after\n"
    + "- Start your response with [ and end with ]\n- EXACTLY 15 questions\n"
    + "- Each question MUST have ALL these fields: passage, question, options (array of 4 strings), correctIndex (0-3), clue, explanation\n"
    + "- All text must be properly escaped (use \\n for line breaks if needed)\n- No trailing commas after last item"

  /** The line naming the learner's level, its guidelines and the difficulty. */
  function TargetLine(level: string, difficulty: string): string
  {
    "Target: " + level + " (" + LevelGuidelines(level) + ") | Difficulty: " + difficulty
  }

  /** The line listing the learner's interests. */
  function InterestsLine(interests: seq<string>): string
  {
    "Interests: " + Join(interests, ", ")
  }

  /**
   * The shape every builder shares: opening sentence, JSON rules, target and
   * interests lines, the mode's focus section, and the closing request.
   */
  function PromptText(opening: string, rules: string, level: string, interests: seq<string>,
                      difficulty: string, focus: string): string
  {
    opening + "\n\nCRITICAL JSON REQUIREMENTS:\n" + rules + "\n\n"
    + TargetLine(level, difficulty) + "\n" + InterestsLine(interests) + "\n\n"
    + focus + "\n\nGenerate 15 questions now:"
  }

  function VocabularyPrompt(level: string, interests: seq<string>, gameMode: string, difficulty: string): string
  {
    PromptText("You are a quiz creator for EngliQuest. Generate EXACTLY 15 vocabulary questions.",
               STANDARD_RULES, level, interests, difficulty, "Vocabulary Focus:")
  }

  function GrammarPrompt(level: string, interests: seq<string>, gameMode: string, difficulty: string): string
  {
    PromptText("You are a grammar quiz creator for EngliQuest. Generate EXACTLY 15 grammar questions.",
               STANDARD_RULES, level, interests, difficulty, "Grammar Focus:")
  }

  function TranslationPrompt(level: string, interests: seq<string>, gameMode: string, difficulty: string): string
  {
    PromptText("You are a translation quiz creator for EngliQuest. Generate EXACTLY 15 Filipino to English translation questions.",
               STANDARD_RULES, level, interests, difficulty, "Translation Focus:")
  }

  function SentenceConstructionPrompt(level: string, interests: seq<string>, gameMode: string, difficulty: string): string
  {
    PromptText("You are a sentence construction quiz creator for EngliQuest. Generate EXACTLY 15 questions.",
               STANDARD_RULES, level, interests, difficulty, "Sentence Construction Focus:")
  }

  function ReadingComprehensionPrompt(level: string, interests: seq<string>, gameMode: string, difficulty: string): string
  {
    PromptText("You are a reading comprehension quiz creator for EngliQuest. Generate EXACTLY 15 questions.",
               READING_RULES, level, interests, difficulty, "Reading Comprehension Focus:")
  }

  /** `t` occurs in `s` at offset `i`. */
  predicate OccursAt(s: string, t: string, i: nat)
  {
    i + |t| <= |s| && s[i..i + |t|] == t
  }

  /** Every prompt carries the target line and the interests line, one after the other. */
  lemma PromptNamesTargetAndInterests(opening: string, rules: string, level: string, interests: seq<string>,
                                      difficulty: string, focus: string)
    ensures var block := TargetLine(level, difficulty) + "\n" + InterestsLine(interests);
      OccursAt(PromptText(opening, rules, level, interests, difficulty, focus), block,
               |opening| + 30 + |rules| + 2)
  {
    var target, line := TargetLine(level, difficulty), InterestsLine(interests);
    var lead, sep := "\n\nCRITICAL JSON REQUIREMENTS:\n", "\n\n";
    var close := "\n\nGenerate 15 questions now:";
    assert PromptText(opening, rules, level, interests, difficulty, focus)
      == opening + lead + rules + sep + target + "\n" + line + sep + focus + close;
    Regroup(opening, lead, rules, sep, target, "\n", line, sep, focus, close);
    OccursInMiddle(opening + lead + rules + sep, target + "\n" + line, sep + focus + close);
  }

  /** Ten concatenated pieces, regrouped as the first four, the next three and the last three. */
  lemma Regroup(p1: string, p2: string, p3: string, p4: string, p5: string, p6: string, p7: string,
                p8: string, p9: string, p10: string)
    ensures p1 + p2 + p3 + p4 + p5 + p6 + p7 + p8 + p9 + p10
      == (p1 + p2 + p3 + p4) + (p5 + p6 + p7) + (p8 + p9 + p10)
  {
    var head, block := p1 + p2 + p3 + p4, p5 + p6 + p7;
    assert head + p5 + p6 + p7 == head + block;
    assert head + block + p8 + p9 + p10 == head + block + (p8 + p9 + p10);
  }

  lemma OccursInMiddle(a: string, b: string, c: string)
    ensures OccursAt(a + b + c, b, |a|)
  {
    assert (a + b + c)[|a|..|a| + |b|] == b;
  }

  // ---------------------------------------------------------------------
  // generateQuiz and createPersonalizedQuizClient
  // ---------------------------------------------------------------------

  /** Attempt k of generateQuiz: model call k on the prompt, validation, count check. */
  function AttemptFn(prompt: string, oracle: (string, nat) -> Result<string, GenError>,
                     parse: string -> Option<Json>): nat -> Result<seq<Json>, GenError>
  {
    (k: nat) => QuizAttempt(oracle(prompt, k), parse)
  }

  lemma AttemptFnAt(prompt: string, oracle: (string, nat) -> Result<string, GenError>,
                    parse: string -> Option<Json>, k: nat)
    ensures AttemptFn(prompt, oracle, parse)(k) == QuizAttempt(oracle(prompt, k), parse)
  {
  }

  /** generateQuiz: the prompt from the builder, then withRetry(attempt, 3, 1000). */
  function GenerateQuiz(level: string, interests: seq<string>, gameMode: string, difficulty: string,
                        builder: (string, seq<string>, string, string) -> string,
                        oracle: (string, nat) -> Result<string, GenError>,
                        parse: string -> Option<Json>): (r: Result<seq<Json>, GenError>)
    ensures r.Ok? ==> |r.value| == 15
  {
    var prompt := builder(level, interests, gameMode, difficulty);
    AttemptFnAt(prompt, oracle, parse, RetryCalls(AttemptFn(prompt, oracle, parse), 3, 0) - 1);
    RetryOutcome(AttemptFn(prompt, oracle, parse), 3)
  }

  /**
   * generateQuiz makes one to four model calls, and it fails only when all
   * four attempts fail.
   */
  lemma GenerateQuizAttempts(level: string, interests: seq<string>, gameMode: string, difficulty: string,
                             builder: (string, seq<string>, string, string) -> string,
                             oracle: (string, nat) -> Result<string, GenError>,
                             parse: string -> Option<Json>)
    ensures var fn := AttemptFn(builder(level, interests, gameMode, difficulty), oracle, parse);
      1 <= RetryCalls(fn, 3, 0) <= 4
    ensures GenerateQuiz(level, interests, gameMode, difficulty, builder, oracle, parse).Err? <==>
      forall k :: 0 <= k <= 3 ==> QuizAttempt(oracle(builder(level, interests, gameMode, difficulty), k), parse).Err?
  {
    var fn := AttemptFn(builder(level, interests, gameMode, difficulty), oracle, parse);
    RetryFailsOnlyWhenAllFail(fn, 3);
    assert forall k: nat :: fn(k) == QuizAttempt(oracle(builder(level, interests, gameMode, difficulty), k), parse);
  }

  datatype QuizResult = QuizResult(quizId: string, questions: seq<Json>)

  /** The prompt builder createPersonalizedQuizClient picks for a mode, if the mode is known. */
  function BuilderFor(gameMode: string): (r: Option<(string, seq<string>, string, string) -> string>)
    ensures r.Some? <==> gameMode in GAME_MODES
  {
    if gameMode == "Vocabulary" then Some(VocabularyPrompt)
    else if gameMode == "Grammar" then Some(GrammarPrompt)
    else if gameMode == "Translation" then Some(TranslationPrompt)
    else if gameMode == "Sentence Construction" then Some(SentenceConstructionPrompt)
    else if gameMode == "Reading Comprehension" then Some(ReadingComprehensionPrompt)
    else None
  }

  /** createPersonalizedQuizClient: dispatch on mode, generate, and name the quiz `userId_now_mode`. */
  function CreatePersonalizedQuizClient(userId: string, level: string, interests: seq<string>, gameMode: string,
                                        difficulty: string, now: nat,
                                        oracle: (string, nat) -> Result<string, GenError>,
                                        parse: string -> Option<Json>): (r: Result<QuizResult, GenError>)
    ensures gameMode !in GAME_MODES ==> r == Err(UnsupportedGameMode(gameMode))
    ensures r.Ok? ==> gameMode in GAME_MODES && |r.value.questions| == 15
    ensures r.Ok? ==> r.value.quizId == userId + "_" + NatToString(now) + "_" + gameMode
  {
    match BuilderFor(gameMode)
    case None => Err(UnsupportedGameMode(gameMode))
    case Some(builder) =>
      match GenerateQuiz(level, interests, gameMode, difficulty, builder, oracle, parse)
      case Err(e) => Err(e)
      case Ok(questions) => Ok(QuizResult(userId + "_" + NatToString(now) + "_" + gameMode, questions))
  }

  // ---------------------------------------------------------------------
  // runWithConcurrencyLimit
  // ---------------------------------------------------------------------

  /** The first rejected task in index order. */
  function FirstFailure<T, E>(outcomes: seq<Result<T, E>>): (r: Option<nat>)
    ensures r.Some? ==> r.value < |outcomes| && outcomes[r.value].Err?
    ensures r.Some? ==> forall k :: 0 <= k < r.value ==> outcomes[k].Ok?
    ensures r.None? <==> forall k :: 0 <= k < |outcomes| ==> outcomes[k].Ok?
  {
    if |outcomes| == 0 then None
    else if outcomes[0].Err? then Some(0)
    else match FirstFailure(outcomes[1..])
      case None => None
      case Some(f) => Some(f + 1)
  }

  /** The onProgress calls (1, n), (2, n), ..., (k, n). */
  function ProgressLog(k: nat, n: nat): (r: seq<(nat, nat)>)
    ensures |r| == k && forall i :: 0 <= i < k ==> r[i] == (i + 1, n)
  {
    seq(k, i requires 0 <= i < k => (i + 1, n))
  }

  /** The first task of the window of width `limit` that holds task `f`. */
  function WindowStart(f: nat, limit: nat): (r: nat)
    requires limit > 0
    ensures r <= f < r + limit
  {
    if f < limit then 0 else WindowStart(f - limit, limit) + limit
  }

  /** The end of the window of width `limit` that holds task `f`, capped at `n`. */
  function WindowEnd(f: nat, limit: nat, n: nat): nat
    requires limit > 0
  {
    var e := WindowStart(f, limit) + limit;
    if e < n then e else n
  }

  /** `i` is where one of the windows 0, limit, 2 limit, ... begins. */
  ghost predicate IsWindowStart(i: nat, limit: nat)
    requires limit > 0
    decreases i
  {
    i == 0 || (i >= limit && IsWindowStart(i - limit, limit))
  }

  lemma {:induction false} WindowStartOf(i: nat, limit: nat, j: nat)
    requires limit > 0 && IsWindowStart(i, limit) && i <= j < i + limit
    ensures WindowStart(j, limit) == i
    decreases i
  {
    if i > 0 {
      WindowStartOf(i - limit, limit, j - limit);
    }
  }

  /**
   * runWithConcurrencyLimit over tasks whose settled outcomes are `outcomes`.
   * Windows [i, i + limit) are started together and settled in index order;
   * the first rejection aborts, so no later window starts. `started` is the
   * number of tasks launched.
   */
  method RunWithConcurrencyLimit<T, E>(outcomes: seq<Result<T, E>>, limit: int)
      returns (r: Result<seq<T>, E>, progress: seq<(nat, nat)>, started: nat)
    requires limit > 0
    ensures FirstFailure(outcomes).None? ==>
      && r.Ok? && |r.value| == |outcomes|
      && (forall k :: 0 <= k < |outcomes| ==> outcomes[k] == Ok(r.value[k]))
      && progress == ProgressLog(|outcomes|, |outcomes|)
      && started == |outcomes|
    ensures FirstFailure(outcomes).Some? ==>
      && r == Err(outcomes[FirstFailure(outcomes).value].error)
      && progress == ProgressLog(FirstFailure(outcomes).value, |outcomes|)
      && started == WindowEnd(FirstFailure(outcomes).value, limit, |outcomes|)
  {
    var n := |outcomes|;
    var results: seq<T> := [];
    progress := [];
    started := 0;
    var completed := 0;
    var i := 0;
    while i < n
      invariant IsWindowStart(i, limit)
      invariant completed == (if i < n then i else n)
      invariant started == completed
      invariant |results| == completed
      invariant forall k :: 0 <= k < completed ==> outcomes[k] == Ok(results[k])
      invariant progress == ProgressLog(completed, n)
      decreases n - i
    {
      var end := if i + limit < n then i + limit else n;
      started := end;
      var j := i;
      while j < end
        invariant i <= j <= end
        invariant completed == j
        invariant |results| == j
        invariant forall k :: 0 <= k < j ==> outcomes[k] == Ok(results[k])
        invariant progress == ProgressLog(j, n)
      {
        completed := completed + 1;
        if outcomes[j].Err? {
          WindowStartOf(i, limit, j);
          assert FirstFailure(outcomes) == Some(j) by {
            FirstFailureIs(outcomes, j);
          }
          r := Err(outcomes[j].error);
          return;
        }
        results := results + [outcomes[j].value];
        progress := progress + [(completed, n)];
        j := j + 1;
      }
      i := i + limit;
    }
    assert FirstFailure(outcomes).None?;
    r := Ok(results);
  }

  lemma FirstFailureIs<T, E>(outcomes: seq<Result<T, E>>, j: nat)
    requires j < |outcomes| && outcomes[j].Err? && forall k :: 0 <= k < j ==> outcomes[k].Ok?
    ensures FirstFailure(outcomes) == Some(j)
  {
    var f := FirstFailure(outcomes);
    assert f.Some?;
  }

  // ---------------------------------------------------------------------
  // generateAllQuizzes
  // ---------------------------------------------------------------------

  datatype PlanEntry = PlanEntry(level: string, difficulty: string, gameMode: string)

  /** One plan cell: every level under every mode, modes in the order of the mode table. */
  const QUIZ_PLAN: seq<PlanEntry> := [
    PlanEntry("A1", "easy", "Vocabulary"), PlanEntry("A2", "easy", "Vocabulary"),
    PlanEntry("B1", "medium", "Vocabulary"), PlanEntry("B2", "medium", "Vocabulary"),
    PlanEntry("C1", "hard", "Vocabulary"), PlanEntry("C2", "hard", "Vocabulary"),
    PlanEntry("A1", "easy", "Grammar"), PlanEntry("A2", "easy", "Grammar"),
    PlanEntry("B1", "medium", "Grammar"), PlanEntry("B2", "medium", "Grammar"),
    PlanEntry("C1", "hard", "Grammar"), PlanEntry("C2", "hard", "Grammar"),
    PlanEntry("A1", "easy", "Translation"), PlanEntry("A2", "easy", "Translation"),
    PlanEntry("B1", "medium", "Translation"), PlanEntry("B2", "medium", "Translation"),
    PlanEntry("C1", "hard", "Translation"), PlanEntry("C2", "hard", "Translation"),
    PlanEntry("A1", "easy", "Sentence Construction"), PlanEntry("A2", "easy", "Sentence Construction"),
    PlanEntry("B1", "medium", "Sentence Construction"), PlanEntry("B2", "medium", "Sentence Construction"),
    PlanEntry("C1", "hard", "Sentence Construction"), PlanEntry("C2", "hard", "Sentence Construction"),
    PlanEntry("A1", "easy", "Reading Comprehension"), PlanEntry("A2", "easy", "Reading Comprehension"),
    PlanEntry("B1", "medium", "Reading Comprehension"), PlanEntry("B2", "medium", "Reading Comprehension"),
    PlanEntry("C1", "hard", "Reading Comprehension"), PlanEntry("C2", "hard", "Reading Comprehension")
  ]

  /** Entry 6m + l of the plan is mode m at level l, with that level's difficulty. */
  lemma PlanLayout()
    ensures |QUIZ_PLAN| == 30
    ensures forall m, l :: 0 <= m < 5 && 0 <= l < 6 ==>
      QUIZ_PLAN[6 * m + l] == PlanEntry(CEFR_LEVELS[l], DIFFICULTY_BY_LEVEL[CEFR_LEVELS[l]], GAME_MODES[m])
  {
    DifficultyByLevelShape();
    forall m | 0 <= m < 5
      ensures forall l :: 0 <= l < 6 ==>
        QUIZ_PLAN[6 * m + l] == PlanEntry(CEFR_LEVELS[l], DIFFICULTY_BY_LEVEL[CEFR_LEVELS[l]], GAME_MODES[m])
    {
      PlanRow(m);
    }
  }

  /** Row m of the plan: mode m at the six levels, two per difficulty. */
  lemma PlanRow(m: nat)
    requires m < 5
    ensures forall l :: 0 <= l < 6 ==>
      QUIZ_PLAN[6 * m + l] == PlanEntry(CEFR_LEVELS[l], ["easy", "medium", "hard"][l / 2], GAME_MODES[m])
  {
    forall l | 0 <= l < 6
      ensures QUIZ_PLAN[6 * m + l] == PlanEntry(CEFR_LEVELS[l], ["easy", "medium", "hard"][l / 2], GAME_MODES[m])
    {
      PlanCellAt(m, l);
    }
  }

  lemma PlanCellAt(m: nat, l: nat)
    requires m < 5 && l < 6
    ensures QUIZ_PLAN[6 * m + l] == PlanEntry(CEFR_LEVELS[l], ["easy", "medium", "hard"][l / 2], GAME_MODES[m])
  {
    if l < 3 {
      PlanCellLow(m, l);
    } else {
      PlanCellHigh(m, l);
    }
  }

  lemma PlanCellLow(m: nat, l: nat)
    requires m < 5 && l < 3
    ensures QUIZ_PLAN[6 * m + l] == PlanEntry(CEFR_LEVELS[l], ["easy", "medium", "hard"][l / 2], GAME_MODES[m])
  {
    if l == 0 {
      if m == 0 {} else if m == 1 {} else if m == 2 {} else if m == 3 {} else {}
    } else if l == 1 {
      if m == 0 {} else if m == 1 {} else if m == 2 {} else if m == 3 {} else {}
    } else {
      if m == 0 {} else if m == 1 {} else if m == 2 {} else if m == 3 {} else {}
    }
  }

  lemma PlanCellHigh(m: nat, l: nat)
    requires m < 5 && 3 <= l < 6
    ensures QUIZ_PLAN[6 * m + l] == PlanEntry(CEFR_LEVELS[l], ["easy", "medium", "hard"][l / 2], GAME_MODES[m])
  {
    if l == 3 {
      if m == 0 {} else if m == 1 {} else if m == 2 {} else if m == 3 {} else {}
    } else if l == 4 {
      if m == 0 {} else if m == 1 {} else if m == 2 {} else if m == 3 {} else {}
    } else {
      if m == 0 {} else if m == 1 {} else if m == 2 {} else if m == 3 {} else {}
    }
  }

  datatype PlannedQuiz = PlannedQuiz(quizId: string, questions: seq<Json>, metadata: PlanEntry)

  /** One task of generateAllQuizzes: generate the cell and attach its metadata. */
  function PlanTask(userId: string, interests: seq<string>, entry: PlanEntry, now: nat,
                    oracle: (string, nat) -> Result<string, GenError>,
                    parse: string -> Option<Json>): (r: Result<PlannedQuiz, GenError>)
    ensures r.Ok? ==> r.value.metadata == entry && |r.value.questions| == 15
  {
    match CreatePersonalizedQuizClient(userId, entry.level, interests, entry.gameMode, entry.difficulty, now, oracle, parse)
    case Err(e) => Err(e)
    case Ok(q) => Ok(PlannedQuiz(q.quizId, q.questions, entry))
  }

  /** The settled outcome of every plan task, in plan order; task k reads the clock as `clock(k)`. */
  function PlanOutcomes(userId: string, interests: seq<string>, clock: nat -> nat,
                        oracle: (string, nat) -> Result<string, GenError>,
                        parse: string -> Option<Json>): (r: seq<Result<PlannedQuiz, GenError>>)
    ensures |r| == |QUIZ_PLAN|
    ensures forall k :: 0 <= k < |r| && r[k].Ok? ==> r[k].value.metadata == QUIZ_PLAN[k] && |r[k].value.questions| == 15
  {
    var r := seq(|QUIZ_PLAN|, k requires 0 <= k < |QUIZ_PLAN| => PlanTask(userId, interests, QUIZ_PLAN[k], clock(k), oracle, parse));
    assert forall k :: 0 <= k < |r| ==> r[k] == PlanTask(userId, interests, QUIZ_PLAN[k], clock(k), oracle, parse);
    r
  }

  /**
   * generateAllQuizzes: the plan tasks run ten at a time. On success there
   * is one quiz of 15 questions per plan entry, in plan order; on failure
   * the progress log stops before the failing task and no window after its
   * own was started.
   */
  method GenerateAllQuizzes(userId: string, interests: seq<string>, clock: nat -> nat,
                            oracle: (string, nat) -> Result<string, GenError>,
                            parse: string -> Option<Json>)
      returns (r: Result<seq<PlannedQuiz>, GenError>, progress: seq<(nat, nat)>, started: nat)
    ensures r.Ok? ==> |r.value| == |QUIZ_PLAN|
    ensures r.Ok? ==> forall k :: 0 <= k < |QUIZ_PLAN| ==> r.value[k].metadata == QUIZ_PLAN[k] && |r.value[k].questions| == 15
    ensures r.Ok? ==> progress == ProgressLog(|QUIZ_PLAN|, |QUIZ_PLAN|) && started == |QUIZ_PLAN|
    ensures r.Err? ==> |progress| < |QUIZ_PLAN| && started == WindowEnd(|progress|, 10, |QUIZ_PLAN|)
  {
    var outcomes := PlanOutcomes(userId, interests, clock, oracle, parse);
    r, progress, started := RunWithConcurrencyLimit(outcomes, 10);
    if r.Ok? {
      forall k | 0 <= k < |QUIZ_PLAN|
        ensures r.value[k].metadata == QUIZ_PLAN[k] && |r.value[k].questions| == 15
      {
        assert outcomes[k] == Ok(r.value[k]);
      }
    }
  }
}
