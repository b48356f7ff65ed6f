/**
 * The admin's quiz-set actions: approving one quiz set, approving all of a
 * user's pending quiz sets in one commit, asking for one set to be
 * regenerated, and starting a user's generation run. The last two call the
 * server routes, which run here on the same store; each action's catch
 * block writes a reset that itself fails silently when its record is missing.
 */
module QuizActions {

  import opened Wrappers
  import opened JsLib
  import opened TemplateTypes
  import opened Sanitizer
  import opened QuizRuns

  /** The fields an approval writes. */
  function Approved(q: QuizSet, now: Timestamp): QuizSet
  {
    q.(status := QuizApproved, approvedAt := Some(now))
  }

  /** approveQuizSet: one update, which fails when the quiz set does not exist. */
  function ApproveQuizSet(st: QuizStore, quizSetId: string, now: Timestamp): (o: Outcome<()>)
    ensures o.result.Ok? <==> quizSetId in st.quizzes
    ensures o.result.Err? ==> o.store == st
  {
    if quizSetId !in st.quizzes then Outcome(Err(QuizNotFound), st)
    else Outcome(Ok(()), st.(quizzes := st.quizzes[quizSetId := Approved(st.quizzes[quizSetId], now)]))
  }

  /** Approving a quiz set changes its status and approval stamp and nothing else in the store. */
  lemma ApprovedOneQuizSet(st: QuizStore, quizSetId: string, now: Timestamp)
    requires quizSetId in st.quizzes
    ensures var s2 := ApproveQuizSet(st, quizSetId, now).store;
      && s2.users == st.users && s2.runs == st.runs && s2.quizzes.Keys == st.quizzes.Keys
      && (forall x :: x in st.quizzes && x != quizSetId ==> s2.quizzes[x] == st.quizzes[x])
      && s2.quizzes[quizSetId] == Approved(st.quizzes[quizSetId], now)
  {
  }

  /** The quiz sets the approve-all query returns. */
  function PendingOf(quizzes: map<string, QuizSet>, userId: string): set<string>
  {
    set x | x in quizzes && quizzes[x].userId == userId && quizzes[x].status == QuizPending
  }

  function ApproveEach(quizzes: map<string, QuizSet>, ids: set<string>, now: Timestamp): map<string, QuizSet>
  {
    map x | x in quizzes :: if x in ids then Approved(quizzes[x], now) else quizzes[x]
  }

  /** approveAllPendingQuizSets: nothing to do is a success with count 0; otherwise one commit of all updates. */
  function ApproveAllPending(st: QuizStore, userId: string, now: Timestamp, commitOk: bool): (o: Outcome<nat>)
    ensures o.result.Err? ==> o.store == st && o.result == Err(CommitFailed)
    ensures PendingOf(st.quizzes, userId) == {} ==> o == Outcome(Ok(0), st)
  {
    var pending := PendingOf(st.quizzes, userId);
    if pending == {} then Outcome(Ok(0), st)
    else if !commitOk then Outcome(Err(CommitFailed), st)
    else Outcome(Ok(|pending|), st.(quizzes := ApproveEach(st.quizzes, pending, now)))
  }

  /**
   * On success the count is the number of the user's pending quiz sets,
   * exactly those become approved, and every other quiz set is unchanged;
   * afterwards the user has none pending.
   */
  lemma ApprovedAllPending(st: QuizStore, userId: string, now: Timestamp, commitOk: bool)
    requires ApproveAllPending(st, userId, now, commitOk).result.Ok?
    ensures var o := ApproveAllPending(st, userId, now, commitOk);
      && o.result.value == |PendingOf(st.quizzes, userId)|
      && o.store.users == st.users && o.store.runs == st.runs
      && o.store.quizzes.Keys == st.quizzes.Keys
      && (forall x :: x in st.quizzes && x !in PendingOf(st.quizzes, userId) ==> o.store.quizzes[x] == st.quizzes[x])
      && (forall x :: x in PendingOf(st.quizzes, userId) ==>
            o.store.quizzes[x] == Approved(st.quizzes[x], now))
      && PendingOf(o.store.quizzes, userId) == {}
  {
    var pending := PendingOf(st.quizzes, userId);
    var after := ApproveEach(st.quizzes, pending, now);
    forall x | x in after && after[x].userId == userId
      ensures after[x].status != QuizPending
    {
      if x !in pending {
        assert after[x] == st.quizzes[x];
      }
    }
    assert PendingOf(after, userId) == {};
  }

  /** The catch block's reset of a quiz set: pending with the error, when the record exists. */
  function ResetQuiz(st: QuizStore, quizSetId: string, e: QuizError): QuizStore
  {
    if quizSetId in st.quizzes then
      st.(quizzes := st.quizzes[quizSetId := st.quizzes[quizSetId].(status := QuizPending, regenerationError := Some(e))])
    else st
  }

  /**
   * regenerateQuizSet: read the set, mark it regenerating, post its own
   * metadata to the regeneration route, and on any failure reset it.
   */
  function RegenerateQuizSet(st: QuizStore, quizSetId: string, now: Timestamp,
                             oracle: (string, nat) -> Result<string, GenError>, parse: string -> Option<Json>): (o: Outcome<()>)
    ensures quizSetId !in st.quizzes ==> o == Outcome(Err(QuizNotFound), st)
    ensures o.store.users == st.users && o.store.runs == st.runs && o.store.quizzes.Keys == st.quizzes.Keys
  {
    if quizSetId !in st.quizzes then Outcome(Err(QuizNotFound), ResetQuiz(st, quizSetId, QuizNotFound))
    else
      var q := st.quizzes[quizSetId];
      var st1 := st.(quizzes := st.quizzes[quizSetId := q.(status := QuizRegenerating, regenerationRequestedAt := Some(now))]);
      var api := Regenerate(st1, quizSetId, q.userId, q.level, q.gameMode, q.difficulty, Some(q.interests), now, oracle, parse);
      match api.result
      case Ok(_) => api
      case Err(e) => Outcome(Err(e), ResetQuiz(api.store, quizSetId, e))
  }

  /**
   * Whatever happens, an existing quiz set is not left regenerating, no
   * other quiz set changes, and a failure leaves it pending with the
   * failure recorded, including a request the route rejects for a missing
   * metadata field.
   */
  lemma RegenerateQuizSetSettles(st: QuizStore, quizSetId: string, now: Timestamp,
                                 oracle: (string, nat) -> Result<string, GenError>, parse: string -> Option<Json>)
    requires quizSetId in st.quizzes
    ensures var o := RegenerateQuizSet(st, quizSetId, now, oracle, parse);
      && o.store.quizzes[quizSetId].status == QuizPending
      && (forall x :: x in st.quizzes && x != quizSetId ==> o.store.quizzes[x] == st.quizzes[x])
      && (o.result.Err? ==> o.store.quizzes[quizSetId].regenerationError == Some(o.result.error))
      && (o.result.Ok? ==> |o.store.quizzes[quizSetId].questions| == 15)
  {
    var q := st.quizzes[quizSetId];
    var st1 := st.(quizzes := st.quizzes[quizSetId := q.(status := QuizRegenerating, regenerationRequestedAt := Some(now))]);
    if q.userId != "" && q.level != "" && q.gameMode != "" && q.difficulty != "" && quizSetId != "" {
      RegenerateSettles(st1, quizSetId, q.userId, q.level, q.gameMode, q.difficulty, Some(q.interests), now, oracle, parse);
    }
  }

  /** Where triggerQuizGeneration takes the interests from: the user record first, else the run record. */
  function TriggerInterests(st: QuizStore, userId: string): (r: seq<string>)
    ensures userId in st.users ==> r == st.users[userId]
    ensures userId !in st.users && userId in st.runs ==> r == st.runs[userId].interests
    ensures userId !in st.users && userId !in st.runs ==> r == []
  {
    if userId in st.users then st.users[userId]
    else if userId in st.runs then st.runs[userId].interests
    else []
  }

  /** The catch block's update of a run: failed with the error, when the record exists. */
  function FailRun(st: QuizStore, userId: string, e: QuizError, now: Timestamp): QuizStore
  {
    if userId in st.runs then
      st.(runs := st.runs[userId := st.runs[userId].(status := RunFailed, error := Some(e), updatedAt := now)])
    else st
  }

  /** The merged pending write made before the route is called. */
  function PendingRun(existing: Option<GenerationRun>, userId: string, interests: seq<string>, now: Timestamp): GenerationRun
  {
    if existing.Some? then
      existing.value.(userId := userId, interests := interests, status := RunPending, createdAt := now, updatedAt := now)
    else GenerationRun(userId, interests, RunPending, None, None, None, now, now, None, None)
  }

  /** triggerQuizGeneration. */
  function TriggerQuizGeneration(st: QuizStore, userId: string, now: Timestamp): (o: Outcome<()>)
    ensures o.store.users == st.users && o.store.quizzes == st.quizzes
    ensures TriggerInterests(st, userId) == [] ==> o == Outcome(Err(NoInterests), FailRun(st, userId, NoInterests, now))
  {
    var interests := TriggerInterests(st, userId);
    if |interests| == 0 then Outcome(Err(NoInterests), FailRun(st, userId, NoInterests, now))
    else
      var existing := if userId in st.runs then Some(st.runs[userId]) else None;
      var st1 := st.(runs := st.runs[userId := PendingRun(existing, userId, interests, now)]);
      var api := StartGeneration(st1, userId, now);
      match api.result
      case Ok(_) => api
      case Err(e) => Outcome(Err(e), FailRun(api.store, userId, e, now))
  }

  /**
   * A trigger either initialises the run through the route (pending, 0 of
   * 30) or leaves a run that exists marked failed with the error.
   */
  lemma TriggerSettles(st: QuizStore, userId: string, now: Timestamp)
    ensures var o := TriggerQuizGeneration(st, userId, now);
      && (o.result.Ok? ==> userId in o.store.runs && o.store.runs[userId].status == RunPending
                           && o.store.runs[userId].progress == Some(0) && o.store.runs[userId].total == Some(30))
      && (o.result.Err? && userId in o.store.runs ==>
            o.store.runs[userId].status == RunFailed && o.store.runs[userId].error == Some(o.result.error))
      && (o.result.Err? && TriggerInterests(st, userId) != [] ==> userId in o.store.runs)
  {
    var interests := TriggerInterests(st, userId);
    if |interests| != 0 {
      var existing := if userId in st.runs then Some(st.runs[userId]) else None;
      var st1 := st.(runs := st.runs[userId := PendingRun(existing, userId, interests, now)]);
      if StartGeneration(st1, userId, now).result.Ok? {
        StartedRun(st1, userId, now);
      }
    }
  }

  /**
   * When the user record is gone but the run still lists interests, the
   * trigger writes the pending status and then the route, which reads only
   * the user record, reports the user missing, so the run ends failed.
   */
  lemma TriggerWithoutUserRecordFails(st: QuizStore, userId: string, now: Timestamp)
    requires userId !in st.users && userId in st.runs && st.runs[userId].interests != []
    ensures var o := TriggerQuizGeneration(st, userId, now);
      && o.result.Err? && o.store.runs[userId].status == RunFailed
      && o.result.error == (if userId == "" then MissingUserId else UserNotFound)
  {
  }
}
