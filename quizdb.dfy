/**
 * The user, run and quiz tables as one mutable object whose methods carry
 * out the generation routes and the admin's quiz-set actions step by step,
 * each proved to leave the tables as the route's or action's function says.
 */
module QuizDatabase {

  import opened Wrappers
  import opened JsLib
  import opened TemplateTypes
  import opened Sanitizer
  import opened QuizRuns
  import QuizActions

  /**
   * The batch route's save pass: walk the settled results in window order,
   * queue one write per successful cell and count them.
   */
  method QueueSaves(quizzes: map<string, QuizSet>, userId: string, interests: seq<string>, window: seq<PlanEntry>,
                    results: seq<Result<seq<Json>, GenError>>, now: Timestamp)
    returns (saved: map<string, QuizSet>, successCount: nat)
    requires |results| == |window|
    ensures saved == SaveResults(quizzes, userId, interests, window, results, now)
    ensures successCount == Successes(results)
  {
    saved, successCount := quizzes, 0;
    var k := 0;
    while k < |window|
      invariant 0 <= k <= |window|
      invariant saved == SaveResults(quizzes, userId, interests, window[..k], results[..k], now)
      invariant successCount == Successes(results[..k])
    {
      assert window[..k + 1][..k] == window[..k] && results[..k + 1][..k] == results[..k];
      if results[k].Ok? {
        saved := saved[QuizIdFor(userId, window[k]) := NewQuiz(userId, interests, window[k], results[k].value, now)];
        successCount := successCount + 1;
      }
      k := k + 1;
    }
    assert window[..k] == window && results[..k] == results;
  }

  /** The approve-all pass: one update per document of the query's snapshot, counting them. */
  method ApproveSnapshot(quizzes: map<string, QuizSet>, snapshot: set<string>, now: Timestamp)
    returns (r: map<string, QuizSet>, size: nat)
    requires snapshot <= quizzes.Keys
    ensures r == QuizActions.ApproveEach(quizzes, snapshot, now)
    ensures size == |snapshot|
  {
    r, size := quizzes, 0;
    var todo := snapshot;
    while todo != {}
      invariant todo <= snapshot
      invariant r.Keys == quizzes.Keys
      invariant size + |todo| == |snapshot|
      invariant forall x :: x in quizzes ==>
        r[x] == (if x in snapshot && x !in todo then QuizActions.Approved(quizzes[x], now) else quizzes[x])
      decreases todo
    {
      var x :| x in todo;
      r := r[x := QuizActions.Approved(r[x], now)];
      size := size + 1;
      todo := todo - {x};
    }
    forall x | x in quizzes
      ensures r[x] == QuizActions.ApproveEach(quizzes, snapshot, now)[x]
    {
    }
  }

  /** A second write to the same key replaces the first. */
  lemma OverwriteTwice(m: map<string, QuizSet>, k: string, first: QuizSet, second: QuizSet)
    ensures m[k := first][k := second] == m[k := second]
  {
  }

  class QuizDb {
    var users: map<string, seq<string>>
    var runs: map<string, GenerationRun>
    var quizzes: map<string, QuizSet>

    constructor (s: QuizStore)
      ensures State() == s
    {
      users, runs, quizzes := s.users, s.runs, s.quizzes;
    }

    function State(): QuizStore
      reads this
    {
      QuizStore(users, runs, quizzes)
    }

    /** POST /api/gemini. */
    method PostGeneration(userId: string, now: Timestamp) returns (r: Result<(), QuizError>)
      modifies this
      ensures r == StartGeneration(old(State()), userId, now).result
      ensures State() == StartGeneration(old(State()), userId, now).store
    {
      var check := CheckUser(State(), userId);
      if check.Err? {
        return Err(check.error);
      }
      var existing := if userId in runs then Some(runs[userId]) else None;
      runs := runs[userId := InitialRun(existing, userId, check.value, now)];
      r := Ok(());
    }

    /** GET /api/gemini. */
    method ReadGeneration(userId: string) returns (r: Result<GenerationRun, QuizError>)
      ensures r == GetGeneration(State(), userId)
    {
      if userId == "" {
        return Err(MissingUserId);
      }
      if userId !in runs {
        return Err(NoGeneration);
      }
      r := Ok(runs[userId]);
    }

    /** POST /api/gemini/batch. */
    method PostBatch(userId: string, batchIndex: int, now: Timestamp,
                     oracle: (string, nat) -> Result<string, GenError>, parse: string -> Option<Json>, commitOk: bool)
      returns (r: Result<BatchReport, QuizError>)
      modifies this
      ensures r == ProcessBatch(old(State()), userId, batchIndex, now, oracle, parse, commitOk).result
      ensures State() == ProcessBatch(old(State()), userId, batchIndex, now, oracle, parse, commitOk).store
    {
      var check := CheckUser(State(), userId);
      if check.Err? {
        return Err(check.error);
      }
      var interests := check.value;
      if userId !in runs || batchIndex == 0 {
        runs := runs[userId := FreshRun(userId, interests, now)];
      }
      var window := Window(batchIndex);
      if |window| == 0 {
        return Ok(AllDone(|BATCH_PLAN|, |BATCH_PLAN|));
      }
      var results := WindowResults(userId, interests, window, now, oracle, parse);
      var saved, successCount := QueueSaves(quizzes, userId, interests, window, results, now);
      if !commitOk {
        return Err(CommitFailed);
      }
      quizzes := saved;
      var endIdx := WindowEnd(batchIndex);
      runs := runs[userId := AdvanceRun(runs[userId], batchIndex, now)];
      r := Ok(WindowDone(endIdx >= |BATCH_PLAN|, endIdx, |BATCH_PLAN|, batchIndex + 1, successCount));
    }

    /** POST /api/gemini/regenerate. */
    method PostRegenerate(quizSetId: string, userId: string, level: string, gameMode: string, difficulty: string,
                          interests: Option<seq<string>>, now: Timestamp,
                          oracle: (string, nat) -> Result<string, GenError>, parse: string -> Option<Json>)
      returns (r: Result<(), QuizError>)
      modifies this
      ensures r == Regenerate(old(State()), quizSetId, userId, level, gameMode, difficulty, interests, now, oracle, parse).result
      ensures State() == Regenerate(old(State()), quizSetId, userId, level, gameMode, difficulty, interests, now, oracle, parse).store
    {
      if quizSetId == "" || userId == "" || level == "" || gameMode == "" || difficulty == "" {
        return Err(MissingFields);
      }
      if quizSetId !in quizzes {
        return Err(QuizNotFound);
      }
      r := RegenerateExisting(quizSetId, userId, level, gameMode, difficulty, interests, now, oracle, parse);
    }

    /** The regeneration route once the request is valid and the quiz exists: mark, generate, overwrite or reset. */
    method RegenerateExisting(quizSetId: string, userId: string, level: string, gameMode: string, difficulty: string,
                              interests: Option<seq<string>>, now: Timestamp,
                              oracle: (string, nat) -> Result<string, GenError>, parse: string -> Option<Json>)
      returns (r: Result<(), QuizError>)
      requires quizSetId != "" && userId != "" && level != "" && gameMode != "" && difficulty != ""
      requires quizSetId in quizzes
      modifies this
      ensures r == Regenerate(old(State()), quizSetId, userId, level, gameMode, difficulty, interests, now, oracle, parse).result
      ensures State() == Regenerate(old(State()), quizSetId, userId, level, gameMode, difficulty, interests, now, oracle, parse).store
    {
      var before, existing := quizzes, quizzes[quizSetId];
      var marked := existing.(status := QuizRegenerating, regenerationRequestedAt := Some(now));
      quizzes := quizzes[quizSetId := marked];
      var ints := if interests.Some? then interests.value else [];
      var generated := GeneratedQuestions(userId, level, ints, gameMode, difficulty, now, oracle, parse);
      if generated.Ok? {
        var rebuilt := RegeneratedQuiz(existing, userId, level, gameMode, difficulty, ints, generated.value, now);
        quizzes := quizzes[quizSetId := rebuilt];
        OverwriteTwice(before, quizSetId, marked, rebuilt);
        r := Ok(());
      } else {
        var e := GenerationError(generated.error);
        var reset := marked.(status := QuizPending, regenerationError := Some(e), updatedAt := Some(now));
        quizzes := quizzes[quizSetId := reset];
        OverwriteTwice(before, quizSetId, marked, reset);
        r := Err(e);
      }
    }

    /** approveQuizSet. */
    method ApproveQuizSet(quizSetId: string, now: Timestamp) returns (r: Result<(), QuizError>)
      modifies this
      ensures r == QuizActions.ApproveQuizSet(old(State()), quizSetId, now).result
      ensures State() == QuizActions.ApproveQuizSet(old(State()), quizSetId, now).store
    {
      if quizSetId !in quizzes {
        return Err(QuizNotFound);
      }
      quizzes := quizzes[quizSetId := QuizActions.Approved(quizzes[quizSetId], now)];
      r := Ok(());
    }

    /** approveAllPendingQuizSets. */
    method ApproveAllPendingQuizSets(userId: string, now: Timestamp, commitOk: bool) returns (r: Result<nat, QuizError>)
      modifies this
      ensures r == QuizActions.ApproveAllPending(old(State()), userId, now, commitOk).result
      ensures State() == QuizActions.ApproveAllPending(old(State()), userId, now, commitOk).store
    {
      var snapshot := QuizActions.PendingOf(quizzes, userId);
      if snapshot == {} {
        return Ok(0);
      }
      var approved, size := ApproveSnapshot(quizzes, snapshot, now);
      if !commitOk {
        return Err(CommitFailed);
      }
      quizzes := approved;
      r := Ok(size);
    }

    /** regenerateQuizSet: mark, call the route, and reset on failure. */
    method RegenerateQuizSet(quizSetId: string, now: Timestamp,
                             oracle: (string, nat) -> Result<string, GenError>, parse: string -> Option<Json>)
      returns (r: Result<(), QuizError>)
      modifies this
      ensures r == QuizActions.RegenerateQuizSet(old(State()), quizSetId, now, oracle, parse).result
      ensures State() == QuizActions.RegenerateQuizSet(old(State()), quizSetId, now, oracle, parse).store
    {
      if quizSetId !in quizzes {
        return Err(QuizNotFound);
      }
      var q := quizzes[quizSetId];
      quizzes := quizzes[quizSetId := q.(status := QuizRegenerating, regenerationRequestedAt := Some(now))];
      r := PostRegenerate(quizSetId, q.userId, q.level, q.gameMode, q.difficulty, Some(q.interests), now, oracle, parse);
      if r.Err? && quizSetId in quizzes {
        quizzes := quizzes[quizSetId := quizzes[quizSetId].(status := QuizPending, regenerationError := Some(r.error))];
      }
    }

    /** triggerQuizGeneration: pick the interests, write the pending merge, call the route, and fail the run on error. */
    method TriggerQuizGeneration(userId: string, now: Timestamp) returns (r: Result<(), QuizError>)
      modifies this
      ensures r == QuizActions.TriggerQuizGeneration(old(State()), userId, now).result
      ensures State() == QuizActions.TriggerQuizGeneration(old(State()), userId, now).store
    {
      var interests := QuizActions.TriggerInterests(State(), userId);
      if |interests| != 0 {
        var existing := if userId in runs then Some(runs[userId]) else None;
        runs := runs[userId := QuizActions.PendingRun(existing, userId, interests, now)];
        r := PostGeneration(userId, now);
      } else {
        r := Err(NoInterests);
      }
      if r.Err? && userId in runs {
        runs := runs[userId := runs[userId].(status := RunFailed, error := Some(r.error), updatedAt := now)];
      }
    }
  }
}
