/**
 * Personalised quiz generation runs and quiz sets: the user, run and quiz
 * tables, and the three server routes that move them: the run
 * initialisation (and its status read), the windowed batch route that
 * generates five plan cells per call, and the regeneration of one quiz set.
 * The generator is `createPersonalizedQuizClient` over an abstract model
 * oracle and parser; each request reads one clock value `now`.
 */
module QuizRuns {

  import opened Wrappers
  import opened JsLib
  import opened Constants
  import opened TemplateTypes
  import opened Sanitizer
  import Generation

  datatype RunStatus = RunPending | InProgress | Completed | RunFailed

  datatype QuizStatus = QuizPending | QuizApproved | QuizRegenerating

  /** Why a route or action fails; also what a failure writes into an `error` field. */
  datatype QuizError =
    | MissingUserId
    | UserNotFound
    | NoInterests
    | NoGeneration
    | CommitFailed
    | MissingFields
    | QuizNotFound
    | GenerationError(cause: GenError)

  /** The per-user generation run; counters a writer never set are absent. */
  datatype GenerationRun = GenerationRun(
    userId: string,
    interests: seq<string>,
    status: RunStatus,
    progress: Option<int>,
    total: Option<int>,
    currentBatch: Option<int>,
    createdAt: Timestamp,
    updatedAt: Timestamp,
    completedAt: Option<Timestamp>,
    error: Option<QuizError>)

  /** One generated quiz set of one user. */
  datatype QuizSet = QuizSet(
    userId: string,
    level: string,
    gameMode: string,
    difficulty: string,
    interests: seq<string>,
    questions: seq<Json>,
    status: QuizStatus,
    createdAt: Option<Timestamp>,
    updatedAt: Option<Timestamp>,
    approvedAt: Option<Timestamp>,
    regenerationRequestedAt: Option<Timestamp>,
    regeneratedAt: Option<Timestamp>,
    regenerationError: Option<QuizError>)

  /** Users (by id, with their interests; a missing interests field reads as empty), runs and quiz sets. */
  datatype QuizStore = QuizStore(
    users: map<string, seq<string>>,
    runs: map<string, GenerationRun>,
    quizzes: map<string, QuizSet>)

  datatype Outcome<T> = Outcome(result: Result<T, QuizError>, store: QuizStore)

  type PlanEntry = Generation.PlanEntry

  // ---------------------------------------------------------------------
  // The route's own plan table.
  // ---------------------------------------------------------------------

  const BATCH_SIZE: int := 5

  /** The batch route keeps its own copy of the 30-cell plan. */
  const BATCH_PLAN: seq<PlanEntry> := [
    Generation.PlanEntry("A1", "easy", "Vocabulary"), Generation.PlanEntry("A2", "easy", "Vocabulary"),
    Generation.PlanEntry("B1", "medium", "Vocabulary"), Generation.PlanEntry("B2", "medium", "Vocabulary"),
    Generation.PlanEntry("C1", "hard", "Vocabulary"), Generation.PlanEntry("C2", "hard", "Vocabulary"),
    Generation.PlanEntry("A1", "easy", "Grammar"), Generation.PlanEntry("A2", "easy", "Grammar"),
    Generation.PlanEntry("B1", "medium", "Grammar"), Generation.PlanEntry("B2", "medium", "Grammar"),
    Generation.PlanEntry("C1", "hard", "Grammar"), Generation.PlanEntry("C2", "hard", "Grammar"),
    Generation.PlanEntry("A1", "easy", "Translation"), Generation.PlanEntry("A2", "easy", "Translation"),
    Generation.PlanEntry("B1", "medium", "Translation"), Generation.PlanEntry("B2", "medium", "Translation"),
    Generation.PlanEntry("C1", "hard", "Translation"), Generation.PlanEntry("C2", "hard", "Translation"),
    Generation.PlanEntry("A1", "easy", "Sentence Construction"), Generation.PlanEntry("A2", "easy", "Sentence Construction"),
    Generation.PlanEntry("B1", "medium", "Sentence Construction"), Generation.PlanEntry("B2", "medium", "Sentence Construction"),
    Generation.PlanEntry("C1", "hard", "Sentence Construction"), Generation.PlanEntry("C2", "hard", "Sentence Construction"),
    Generation.PlanEntry("A1", "easy", "Reading Comprehension"), Generation.PlanEntry("A2", "easy", "Reading Comprehension"),
    Generation.PlanEntry("B1", "medium", "Reading Comprehension"), Generation.PlanEntry("B2", "medium", "Reading Comprehension"),
    Generation.PlanEntry("C1", "hard", "Reading Comprehension"), Generation.PlanEntry("C2", "hard", "Reading Comprehension")
  ]

  /** The two copies of the plan agree cell for cell. */
  lemma BatchPlanIsServicePlan()
    ensures BATCH_PLAN == Generation.QUIZ_PLAN && |BATCH_PLAN| == 30
  {
  }

  // ---------------------------------------------------------------------
  // POST and GET /api/gemini.
  // ---------------------------------------------------------------------

  /** The checks both generation routes make on the user before any write. */
  function CheckUser(st: QuizStore, userId: string): (r: Result<seq<string>, QuizError>)
    ensures r.Ok? <==> userId != "" && userId in st.users && st.users[userId] != []
    ensures r.Ok? ==> r.value == st.users[userId]
    ensures userId == "" ==> r == Err(MissingUserId)
    ensures userId != "" && userId !in st.users ==> r == Err(UserNotFound)
    ensures userId in st.users && st.users[userId] == [] ==> r.Err? && (userId != "" ==> r == Err(NoInterests))
  {
    if userId == "" then Err(MissingUserId)
    else if userId !in st.users then Err(UserNotFound)
    else if |st.users[userId]| == 0 then Err(NoInterests)
    else Ok(st.users[userId])
  }

  /** The merged initial write: status, counters and stamps set; fields it does not name kept. */
  function InitialRun(existing: Option<GenerationRun>, userId: string, interests: seq<string>, now: Timestamp): GenerationRun
  {
    var fields := GenerationRun(userId, interests, RunPending, Some(0), Some(30), Some(0), now, now, None, None);
    if existing.Some? then
      existing.value.(userId := userId, interests := interests, status := RunPending, progress := Some(0),
                      total := Some(30), currentBatch := Some(0), createdAt := now, updatedAt := now)
    else fields
  }

  /** POST /api/gemini. */
  function StartGeneration(st: QuizStore, userId: string, now: Timestamp): (o: Outcome<()>)
    ensures o.result.Ok? <==> CheckUser(st, userId).Ok?
    ensures o.result.Err? ==> o.store == st && CheckUser(st, userId).Err? && o.result.error == CheckUser(st, userId).error
    ensures o.store.users == st.users && o.store.quizzes == st.quizzes
  {
    match CheckUser(st, userId)
    case Err(e) => Outcome(Err(e), st)
    case Ok(interests) =>
      var existing := if userId in st.runs then Some(st.runs[userId]) else None;
      Outcome(Ok(()), st.(runs := st.runs[userId := InitialRun(existing, userId, interests, now)]))
  }

  /**
   * A successful initialisation resets the run to pending with progress 0
   * of 30 at batch 0, copies the user's interests, keeps an earlier
   * completion stamp and error, and touches no other run.
   */
  lemma StartedRun(st: QuizStore, userId: string, now: Timestamp)
    requires StartGeneration(st, userId, now).result.Ok?
    ensures var runs := StartGeneration(st, userId, now).store.runs;
      && runs.Keys == st.runs.Keys + {userId}
      && (forall u :: u in st.runs && u != userId ==> runs[u] == st.runs[u])
      && runs[userId].status == RunPending && runs[userId].interests == st.users[userId]
      && runs[userId].progress == Some(0) && runs[userId].total == Some(30) && runs[userId].currentBatch == Some(0)
      && runs[userId].createdAt == now && runs[userId].updatedAt == now
      && (userId in st.runs ==> runs[userId].completedAt == st.runs[userId].completedAt && runs[userId].error == st.runs[userId].error)
      && (userId !in st.runs ==> runs[userId].completedAt == None && runs[userId].error == None)
  {
  }

  /** GET /api/gemini: the stored run, if there is one. */
  function GetGeneration(st: QuizStore, userId: string): (r: Result<GenerationRun, QuizError>)
    ensures userId == "" <==> r == Err(MissingUserId)
    ensures r.Ok? <==> userId != "" && userId in st.runs
    ensures r.Ok? ==> r.value == st.runs[userId]
    ensures r.Err? && userId != "" ==> r == Err(NoGeneration)
  {
    if userId == "" then Err(MissingUserId)
    else if userId !in st.runs then Err(NoGeneration)
    else Ok(st.runs[userId])
  }

  // ---------------------------------------------------------------------
  // POST /api/gemini/batch.
  // ---------------------------------------------------------------------

  /** `min(5b + 5, 30)`. */
  function WindowEnd(batchIndex: int): (r: int)
    ensures r <= |BATCH_PLAN|
  {
    if batchIndex * BATCH_SIZE + BATCH_SIZE < |BATCH_PLAN| then batchIndex * BATCH_SIZE + BATCH_SIZE else |BATCH_PLAN|
  }

  /** The plan cells of one call: `QUIZ_PLAN.slice(5b, min(5b + 5, 30))` with the slice's rules for negative bounds. */
  function Window(batchIndex: int): seq<PlanEntry>
  {
    Slice(BATCH_PLAN, batchIndex * BATCH_SIZE, WindowEnd(batchIndex))
  }

  /** Batches 0 to 5 cut the plan into six consecutive windows of five; every later batch is empty. */
  lemma WindowsPartitionPlan()
    ensures forall b :: 0 <= b < 6 ==> Window(b) == BATCH_PLAN[5 * b..5 * b + 5]
    ensures Window(0) + Window(1) + Window(2) + Window(3) + Window(4) + Window(5) == BATCH_PLAN
    ensures forall b :: b >= 6 ==> Window(b) == []
  {
    assert BATCH_PLAN == BATCH_PLAN[0..5] + BATCH_PLAN[5..10] + BATCH_PLAN[10..15]
                         + BATCH_PLAN[15..20] + BATCH_PLAN[20..25] + BATCH_PLAN[25..30];
  }

  /**
   * A negative batch index is not rejected: the slice counts its start from
   * the end, so batch -2 regenerates cells 20 to 24 and then records
   * progress -5.
   */
  lemma NegativeBatchIndex()
    ensures Window(-1) == []
    ensures Window(-2) == BATCH_PLAN[20..25] && WindowEnd(-2) == -5
  {
  }

  /** The run record written when a batch call starts a run: a full overwrite. */
  function FreshRun(userId: string, interests: seq<string>, now: Timestamp): GenerationRun
  {
    GenerationRun(userId, interests, InProgress, Some(0), Some(|BATCH_PLAN|), Some(0), now, now, None, None)
  }

  /** `gameMode.replace(/\s+/g, '')`. */
  function RemoveSpaces(s: string): (r: string)
    ensures |r| <= |s|
    ensures forall i :: 0 <= i < |r| ==> !IsSpace(r[i])
    ensures (forall i :: 0 <= i < |s| ==> !IsSpace(s[i])) ==> r == s
  {
    if |s| == 0 then ""
    else (if IsSpace(s[0]) then "" else [s[0]]) + RemoveSpaces(s[1..])
  }

  /** The document id of a plan cell's quiz: user, level, mode without spaces and difficulty. */
  function QuizIdFor(userId: string, e: PlanEntry): string
  {
    userId + "_" + e.level + "_" + RemoveSpaces(e.gameMode) + "_" + e.difficulty
  }

  /** The questions `createPersonalizedQuizClient` returns at clock `now`, or the error it throws. */
  function GeneratedQuestions(userId: string, level: string, interests: seq<string>, gameMode: string, difficulty: string,
                              now: Timestamp, oracle: (string, nat) -> Result<string, GenError>,
                              parse: string -> Option<Json>): (r: Result<seq<Json>, GenError>)
    ensures r.Ok? ==> |r.value| == 15
  {
    var n: nat := if now < 0 then 0 else now;
    match Generation.CreatePersonalizedQuizClient(userId, level, interests, gameMode, difficulty, n, oracle, parse)
    case Ok(q) => Ok(q.questions)
    case Err(err) => Err(err)
  }

  /** One task of the window: generate the cell; a thrown error becomes a failed result. */
  function CellResult(userId: string, interests: seq<string>, e: PlanEntry, now: Timestamp,
                      oracle: (string, nat) -> Result<string, GenError>,
                      parse: string -> Option<Json>): (r: Result<seq<Json>, GenError>)
    ensures r.Ok? ==> |r.value| == 15
  {
    GeneratedQuestions(userId, e.level, interests, e.gameMode, e.difficulty, now, oracle, parse)
  }

  function WindowResults(userId: string, interests: seq<string>, window: seq<PlanEntry>, now: Timestamp,
                         oracle: (string, nat) -> Result<string, GenError>,
                         parse: string -> Option<Json>): (r: seq<Result<seq<Json>, GenError>>)
    ensures |r| == |window|
    ensures forall k :: 0 <= k < |window| ==> r[k] == CellResult(userId, interests, window[k], now, oracle, parse)
  {
    seq(|window|, k requires 0 <= k < |window| => CellResult(userId, interests, window[k], now, oracle, parse))
  }

  /** The quiz record saved for one generated cell. */
  function NewQuiz(userId: string, interests: seq<string>, e: PlanEntry, questions: seq<Json>, now: Timestamp): QuizSet
  {
    QuizSet(userId, e.level, e.gameMode, e.difficulty, interests, questions, QuizPending, Some(now), Some(now),
            None, None, None, None)
  }

  /** The queued writes of a settled window: one full overwrite per successful cell, in window order. */
  function SaveResults(quizzes: map<string, QuizSet>, userId: string, interests: seq<string>, window: seq<PlanEntry>,
                       results: seq<Result<seq<Json>, GenError>>, now: Timestamp): map<string, QuizSet>
    requires |results| == |window|
    decreases |window|
  {
    if |window| == 0 then quizzes
    else
      var n := |window| - 1;
      var saved := SaveResults(quizzes, userId, interests, window[..n], results[..n], now);
      if results[n].Ok? then saved[QuizIdFor(userId, window[n]) := NewQuiz(userId, interests, window[n], results[n].value, now)]
      else saved
  }

  /** The number of successful cells. */
  function Successes<T, E>(results: seq<Result<T, E>>): (r: nat)
    ensures r <= |results|
    decreases |results|
  {
    if |results| == 0 then 0
    else Successes(results[..|results| - 1]) + (if results[|results| - 1].Ok? then 1 else 0)
  }

  /** The ids the saves of a window write. */
  function SavedIds(userId: string, window: seq<PlanEntry>, results: seq<Result<seq<Json>, GenError>>): set<string>
    requires |results| == |window|
  {
    set k | 0 <= k < |window| && results[k].Ok? :: QuizIdFor(userId, window[k])
  }

  /**
   * Only successful cells are written, each as a pending quiz of that cell
   * and user, under that cell's id; every other quiz is left alone.
   */
  lemma {:induction false} SaveResultsShape(quizzes: map<string, QuizSet>, userId: string, interests: seq<string>,
                                            window: seq<PlanEntry>, results: seq<Result<seq<Json>, GenError>>, now: Timestamp)
    requires |results| == |window|
    ensures var saved := SaveResults(quizzes, userId, interests, window, results, now);
      && saved.Keys == quizzes.Keys + SavedIds(userId, window, results)
      && (forall x :: x in quizzes && x !in SavedIds(userId, window, results) ==> saved[x] == quizzes[x])
      && (forall x :: x in SavedIds(userId, window, results) ==>
            saved[x].status == QuizPending && saved[x].userId == userId && saved[x].interests == interests
            && saved[x].createdAt == Some(now) && saved[x].approvedAt == None)
    decreases |window|
  {
    if |window| > 0 {
      var n := |window| - 1;
      SaveResultsShape(quizzes, userId, interests, window[..n], results[..n], now);
      SavedIdsStep(userId, window, results);
      var saved := SaveResults(quizzes, userId, interests, window[..n], results[..n], now);
      var id := QuizIdFor(userId, window[n]);
      if results[n].Ok? {
        SaveStep(quizzes, saved, SavedIds(userId, window[..n], results[..n]), id,
                 NewQuiz(userId, interests, window[n], results[n].value, now), userId, interests, now);
      }
    }
  }

  /** A quiz freshly written by the save pass for this user and these interests. */
  predicate FreshPending(q: QuizSet, userId: string, interests: seq<string>, now: Timestamp)
  {
    q.status == QuizPending && q.userId == userId && q.interests == interests && q.createdAt == Some(now) && q.approvedAt == None
  }

  lemma SaveStep(quizzes: map<string, QuizSet>, saved: map<string, QuizSet>, ids: set<string>, id: string, q: QuizSet,
                 userId: string, interests: seq<string>, now: Timestamp)
    requires saved.Keys == quizzes.Keys + ids
    requires forall x :: x in quizzes && x !in ids ==> saved[x] == quizzes[x]
    requires forall x :: x in ids ==> FreshPending(saved[x], userId, interests, now)
    requires FreshPending(q, userId, interests, now)
    ensures saved[id := q].Keys == quizzes.Keys + (ids + {id})
    ensures forall x :: x in quizzes && x !in ids + {id} ==> saved[id := q][x] == quizzes[x]
    ensures forall x :: x in ids + {id} ==> FreshPending(saved[id := q][x], userId, interests, now)
  {
  }

  lemma SavedIdsStep(userId: string, window: seq<PlanEntry>, results: seq<Result<seq<Json>, GenError>>)
    requires |results| == |window| > 0
    ensures var n := |window| - 1;
      SavedIds(userId, window, results) ==
        SavedIds(userId, window[..n], results[..n]) + (if results[n].Ok? then {QuizIdFor(userId, window[n])} else {})
  {
    var n := |window| - 1;
    var pre := SavedIds(userId, window[..n], results[..n]);
    forall x | x in SavedIds(userId, window, results)
      ensures x in pre + (if results[n].Ok? then {QuizIdFor(userId, window[n])} else {})
    {
      var k :| 0 <= k < |window| && results[k].Ok? && x == QuizIdFor(userId, window[k]);
      if k < n {
        assert window[..n][k] == window[k] && results[..n][k] == results[k];
      }
    }
    forall x | x in pre
      ensures x in SavedIds(userId, window, results)
    {
      var k :| 0 <= k < n && results[..n][k].Ok? && x == QuizIdFor(userId, window[..n][k]);
      assert window[..n][k] == window[k] && results[..n][k] == results[k];
    }
  }

  /** What a batch call reports: an empty window, or one window's progress and number saved. */
  datatype BatchReport =
    | AllDone(progress: int, total: int)
    | WindowDone(completed: bool, progress: int, total: int, batchIndex: int, generatedInBatch: nat)

  /** The run update after a committed window; the completion stamp only when the plan is done. */
  function AdvanceRun(run: GenerationRun, batchIndex: int, now: Timestamp): GenerationRun
  {
    var completed := WindowEnd(batchIndex) >= |BATCH_PLAN|;
    run.(progress := Some(WindowEnd(batchIndex)), currentBatch := Some(batchIndex + 1),
         status := if completed then Completed else InProgress, updatedAt := now,
         completedAt := if completed then Some(now) else run.completedAt)
  }

  /** The store after the run check: reset when there is no run yet or this is batch 0. */
  function StartedStore(st: QuizStore, userId: string, interests: seq<string>, batchIndex: int, now: Timestamp): (r: QuizStore)
    ensures userId in r.runs
  {
    if userId !in st.runs || batchIndex == 0 then st.(runs := st.runs[userId := FreshRun(userId, interests, now)]) else st
  }

  /**
   * POST /api/gemini/batch. A failed commit reaches the handler's catch,
   * whose attempt to mark the run failed reads the request body a second
   * time and so never writes: the store keeps the reset, if any, and
   * nothing else.
   */
  function ProcessBatch(st: QuizStore, userId: string, batchIndex: int, now: Timestamp,
                        oracle: (string, nat) -> Result<string, GenError>, parse: string -> Option<Json>,
                        commitOk: bool): (o: Outcome<BatchReport>)
    ensures CheckUser(st, userId).Err? ==> o == Outcome(Err(CheckUser(st, userId).error), st)
    ensures o.store.users == st.users
  {
    match CheckUser(st, userId)
    case Err(e) => Outcome(Err(e), st)
    case Ok(interests) =>
      var st1 := StartedStore(st, userId, interests, batchIndex, now);
      var window := Window(batchIndex);
      if |window| == 0 then Outcome(Ok(AllDone(|BATCH_PLAN|, |BATCH_PLAN|)), st1)
      else
        var results := WindowResults(userId, interests, window, now, oracle, parse);
        if !commitOk then Outcome(Err(CommitFailed), st1)
        else
          var endIdx := WindowEnd(batchIndex);
          Outcome(Ok(WindowDone(endIdx >= |BATCH_PLAN|, endIdx, |BATCH_PLAN|, batchIndex + 1, Successes(results))),
                  st1.(quizzes := SaveResults(st1.quizzes, userId, interests, window, results, now),
                       runs := st1.runs[userId := AdvanceRun(st1.runs[userId], batchIndex, now)]))
  }

  /**
   * After a committed window the run's progress is the window's end, even
   * when cells failed; the batch counter is the next index; the run is
   * completed exactly when the end reaches 30, which also stamps it; the
   * report counts the saved cells.
   */
  lemma BatchProgress(st: QuizStore, userId: string, batchIndex: int, now: Timestamp,
                      oracle: (string, nat) -> Result<string, GenError>, parse: string -> Option<Json>)
    requires ProcessBatch(st, userId, batchIndex, now, oracle, parse, true).result.Ok?
    requires Window(batchIndex) != []
    ensures var o := ProcessBatch(st, userId, batchIndex, now, oracle, parse, true);
      var run := o.store.runs[userId];
      var results := WindowResults(userId, st.users[userId], Window(batchIndex), now, oracle, parse);
      && o.result.value == WindowDone(WindowEnd(batchIndex) >= 30, WindowEnd(batchIndex), 30, batchIndex + 1, Successes(results))
      && run.progress == Some(WindowEnd(batchIndex)) && run.currentBatch == Some(batchIndex + 1)
      && (run.status == Completed <==> WindowEnd(batchIndex) >= 30)
      && (run.status != Completed ==> run.status == InProgress)
      && (WindowEnd(batchIndex) >= 30 ==> run.completedAt == Some(now))
  {
  }

  /** Whatever came before, a committed batch 5 leaves the run completed with all 30 cells counted. */
  lemma LastBatchCompletes(st: QuizStore, userId: string, now: Timestamp,
                           oracle: (string, nat) -> Result<string, GenError>, parse: string -> Option<Json>)
    requires CheckUser(st, userId).Ok?
    ensures var o := ProcessBatch(st, userId, 5, now, oracle, parse, true);
      && o.result.Ok? && o.result.value.WindowDone? && o.result.value.completed
      && o.store.runs[userId].status == Completed && o.store.runs[userId].progress == Some(30)
      && o.store.runs[userId].currentBatch == Some(6)
  {
    WindowsPartitionPlan();
  }

  /** The failure path never marks the run failed. */
  lemma CommitFailureLeavesRunUnfailed(st: QuizStore, userId: string, batchIndex: int, now: Timestamp,
                                       oracle: (string, nat) -> Result<string, GenError>, parse: string -> Option<Json>)
    requires CheckUser(st, userId).Ok? && Window(batchIndex) != []
    ensures var o := ProcessBatch(st, userId, batchIndex, now, oracle, parse, false);
      && o.result == Err(CommitFailed)
      && o.store.quizzes == st.quizzes
      && o.store.runs[userId].status == if userId !in st.runs || batchIndex == 0 then InProgress else st.runs[userId].status
  {
  }

  /**
   * Batch 0 always restarts the run from scratch, dropping any earlier
   * completion stamp and error.
   */
  lemma FirstBatchResetsRun(st: QuizStore, userId: string, now: Timestamp,
                            oracle: (string, nat) -> Result<string, GenError>, parse: string -> Option<Json>, commitOk: bool)
    requires CheckUser(st, userId).Ok?
    ensures var run := ProcessBatch(st, userId, 0, now, oracle, parse, commitOk).store.runs[userId];
      && run.createdAt == now && run.interests == st.users[userId] && run.completedAt == None && run.error == None
      && run.total == Some(30)
  {
    WindowsPartitionPlan();
  }

  // ---------------------------------------------------------------------
  // POST /api/gemini/regenerate.
  // ---------------------------------------------------------------------

  /** The full overwrite after a successful regeneration; only the creation stamp survives. */
  function RegeneratedQuiz(existing: QuizSet, userId: string, level: string, gameMode: string, difficulty: string,
                           interests: seq<string>, questions: seq<Json>, now: Timestamp): QuizSet
  {
    QuizSet(userId, level, gameMode, difficulty, interests, questions, QuizPending,
            if existing.createdAt.Some? then existing.createdAt else Some(now),
            Some(now), None, None, Some(now), None)
  }

  /**
   * POST /api/gemini/regenerate. The quiz is marked regenerating first (an
   * update, which fails when the quiz does not exist), then either
   * overwritten with the new questions or put back to pending with the error.
   */
  function Regenerate(st: QuizStore, quizSetId: string, userId: string, level: string, gameMode: string,
                      difficulty: string, interests: Option<seq<string>>, now: Timestamp,
                      oracle: (string, nat) -> Result<string, GenError>, parse: string -> Option<Json>): (o: Outcome<()>)
    ensures quizSetId == "" || userId == "" || level == "" || gameMode == "" || difficulty == "" ==>
      o == Outcome(Err(MissingFields), st)
    ensures quizSetId !in st.quizzes ==> o.store == st && o.result.Err?
    ensures o.store.users == st.users && o.store.runs == st.runs && o.store.quizzes.Keys == st.quizzes.Keys
  {
    if quizSetId == "" || userId == "" || level == "" || gameMode == "" || difficulty == "" then Outcome(Err(MissingFields), st)
    else if quizSetId !in st.quizzes then Outcome(Err(QuizNotFound), st)
    else
      var existing := st.quizzes[quizSetId];
      var marked := existing.(status := QuizRegenerating, regenerationRequestedAt := Some(now));
      var ints := if interests.Some? then interests.value else [];
      match GeneratedQuestions(userId, level, ints, gameMode, difficulty, now, oracle, parse)
      case Ok(questions) =>
        Outcome(Ok(()), st.(quizzes := st.quizzes[quizSetId := RegeneratedQuiz(existing, userId, level, gameMode, difficulty, ints, questions, now)]))
      case Err(e) =>
        Outcome(Err(GenerationError(e)),
                st.(quizzes := st.quizzes[quizSetId := marked.(status := QuizPending, regenerationError := Some(GenerationError(e)), updatedAt := Some(now))]))
  }

  /**
   * The regeneration never leaves its quiz regenerating; on success the
   * record holds the new questions, is pending, keeps its creation stamp
   * and has lost its approval stamp and earlier error; on a generation
   * error it is pending with that error recorded. No other quiz changes.
   */
  lemma RegenerateSettles(st: QuizStore, quizSetId: string, userId: string, level: string, gameMode: string,
                          difficulty: string, interests: Option<seq<string>>, now: Timestamp,
                          oracle: (string, nat) -> Result<string, GenError>, parse: string -> Option<Json>)
    requires quizSetId in st.quizzes
    requires quizSetId != "" && userId != "" && level != "" && gameMode != "" && difficulty != ""
    ensures var o := Regenerate(st, quizSetId, userId, level, gameMode, difficulty, interests, now, oracle, parse);
      var q := o.store.quizzes[quizSetId];
      && q.status != QuizRegenerating
      && (forall x :: x in st.quizzes && x != quizSetId ==> o.store.quizzes[x] == st.quizzes[x])
      && (o.result.Ok? ==>
            && q.status == QuizPending && |q.questions| == 15
            && q.createdAt == (if st.quizzes[quizSetId].createdAt.Some? then st.quizzes[quizSetId].createdAt else Some(now))
            && q.approvedAt == None && q.regenerationError == None && q.regeneratedAt == Some(now)
            && q.userId == userId && q.level == level && q.gameMode == gameMode && q.difficulty == difficulty)
      && (o.result.Err? ==>
            && o.result.error.GenerationError? && q.status == QuizPending && q.regenerationError == Some(o.result.error)
            && q.questions == st.quizzes[quizSetId].questions && q.regenerationRequestedAt == Some(now))
  {
  }
}
