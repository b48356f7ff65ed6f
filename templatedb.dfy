/**
 * The moderation handlers as they run against the store: each request walks
 * its ids filling per-pool and per-batch maps, queues its writes, commits
 * them at once (or not at all), and then recomputes the status of each
 * touched batch one by one. Every handler is proved to leave exactly the
 * store, and to return exactly the response, of its transition function.
 */
module TemplateDatabase {

  import opened Wrappers
  import opened TemplateTypes
  import opened TemplateStore
  import ApproveQuestions
  import RejectQuestions
  import UnapproveQuestions
  import GenerateBatch
  import UpdateQuestion

  // ---------------------------------------------------------------------
  // The passes the handlers make over a request.
  // ---------------------------------------------------------------------

  /** The approve and unapprove grouping pass: pool groups and batch counts filled in one walk. */
  method GroupRequest(qs: map<string, TemplateQuestion>, ids: seq<string>)
    returns (groups: map<string, ApproveQuestions.PoolGroup>, counts: map<string, nat>)
    requires AllFound(qs, ids)
    ensures groups == ApproveQuestions.PoolGroupsOf(qs, ids)
    ensures counts == BatchCountsOf(qs, ids)
  {
    groups, counts := map[], map[];
    var k := 0;
    while k < |ids|
      invariant 0 <= k <= |ids|
      invariant AllFound(qs, ids[..k])
      invariant groups == ApproveQuestions.PoolGroupsOf(qs, ids[..k])
      invariant counts == BatchCountsOf(qs, ids[..k])
    {
      var q := qs[ids[k]];
      var p := PoolOf(q);
      if p in groups {
        groups := groups[p := groups[p].(batchIds := groups[p].batchIds + {q.batchId})];
      } else {
        groups := groups[p := ApproveQuestions.PoolGroup(q.interest, q.level, q.gameMode, q.difficulty, {q.batchId})];
      }
      counts := counts[q.batchId := Get(counts, q.batchId) + 1];
      assert ids[..k + 1][..k] == ids[..k];
      k := k + 1;
    }
    assert ids[..|ids|] == ids;
  }

  /** The reject counting pass: batch counts only. */
  method CountPerBatch(qs: map<string, TemplateQuestion>, ids: seq<string>) returns (counts: map<string, nat>)
    requires AllFound(qs, ids)
    ensures counts == BatchCountsOf(qs, ids)
  {
    counts := map[];
    var k := 0;
    while k < |ids|
      invariant 0 <= k <= |ids|
      invariant AllFound(qs, ids[..k])
      invariant counts == BatchCountsOf(qs, ids[..k])
    {
      var b := qs[ids[k]].batchId;
      counts := counts[b := Get(counts, b) + 1];
      assert ids[..k + 1][..k] == ids[..k];
      k := k + 1;
    }
    assert ids[..|ids|] == ids;
  }

  /** The queued item writes: each listed item is rewritten by `write`, every other item is kept. */
  method WriteItems(qs: map<string, TemplateQuestion>, ids: seq<string>, write: TemplateQuestion -> TemplateQuestion)
    returns (r: map<string, TemplateQuestion>)
    requires AllFound(qs, ids)
    ensures r.Keys == qs.Keys
    ensures forall x :: x in qs ==> r[x] == if x in ids then write(qs[x]) else qs[x]
  {
    r := qs;
    var k := 0;
    while k < |ids|
      invariant 0 <= k <= |ids|
      invariant r.Keys == qs.Keys
      invariant forall x :: x in qs ==> r[x] == if x in ids[..k] then write(qs[x]) else qs[x]
    {
      r := r[ids[k] := write(qs[ids[k]])];
      assert forall x :: x in ids[..k + 1] <==> x in ids[..k] || x == ids[k];
      k := k + 1;
    }
    assert ids[..|ids|] == ids;
  }

  /** The approve pool pass: each group is merged into its pool record, creating it when absent. */
  method WritePools(pools: map<string, Pool>, groups: map<string, ApproveQuestions.PoolGroup>, n: nat, now: Timestamp)
    returns (r: map<string, Pool>)
    ensures r == ApproveQuestions.MergePools(pools, groups, n, now)
  {
    r := pools;
    var todo := groups.Keys;
    while todo != {}
      invariant todo <= groups.Keys
      invariant r == MergedSoFar(pools, groups, groups.Keys - todo, n, now)
      decreases todo
    {
      var p :| p in todo;
      MergedStep(pools, groups, groups.Keys - todo, p, n, now);
      r := r[p := ApproveQuestions.MergePool(if p in r then Some(r[p]) else None, p, groups[p], n, now)];
      assert groups.Keys - (todo - {p}) == (groups.Keys - todo) + {p};
      todo := todo - {p};
    }
    assert groups.Keys - todo == groups.Keys;
    assert r.Keys == ApproveQuestions.MergePools(pools, groups, n, now).Keys;
  }

  /** The pools once the groups in `done` have been merged. */
  ghost function MergedSoFar(pools: map<string, Pool>, groups: map<string, ApproveQuestions.PoolGroup>, done: set<string>,
                             n: nat, now: Timestamp): map<string, Pool>
    requires done <= groups.Keys
  {
    map x | x in pools.Keys + done ::
      if x in done then ApproveQuestions.MergePool(if x in pools then Some(pools[x]) else None, x, groups[x], n, now)
      else pools[x]
  }

  lemma MergedStep(pools: map<string, Pool>, groups: map<string, ApproveQuestions.PoolGroup>, done: set<string>, p: string,
                   n: nat, now: Timestamp)
    requires done <= groups.Keys && p in groups && p !in done
    ensures var before := MergedSoFar(pools, groups, done, n, now);
      MergedSoFar(pools, groups, done + {p}, n, now)
        == before[p := ApproveQuestions.MergePool(if p in before then Some(before[p]) else None, p, groups[p], n, now)]
  {
    var before := MergedSoFar(pools, groups, done, n, now);
    var after := MergedSoFar(pools, groups, done + {p}, n, now);
    var merged := ApproveQuestions.MergePool(if p in before then Some(before[p]) else None, p, groups[p], n, now);
    assert p in before <==> p in pools;
    assert after.Keys == before[p := merged].Keys;
    forall x | x in after
      ensures after[x] == before[p := merged][x]
    {
    }
  }

  /** The unapprove pool pass: an update per touched pool, which fails the commit when a pool is missing. */
  method WritePoolDecrements(pools: map<string, Pool>, touched: set<string>, n: nat, now: Timestamp)
    returns (r: Option<map<string, Pool>>)
    ensures r == if touched <= pools.Keys then Some(UnapproveQuestions.DecrementPools(pools, touched, n, now)) else None
  {
    var written := pools;
    var missing := false;
    var todo := touched;
    while todo != {}
      invariant todo <= touched
      invariant written.Keys == pools.Keys
      invariant missing <==> !(touched - todo <= pools.Keys)
      invariant forall p :: p in pools ==>
        written[p] == (if p in touched && p !in todo then pools[p].(totalQuestions := pools[p].totalQuestions - n, lastUpdated := now)
                       else pools[p])
      decreases todo
    {
      var p :| p in todo;
      if p in written {
        written := written[p := written[p].(totalQuestions := written[p].totalQuestions - n, lastUpdated := now)];
      } else {
        missing := true;
      }
      todo := todo - {p};
    }
    assert touched - todo == touched;
    if missing {
      r := None;
    } else {
      assert written == UnapproveQuestions.DecrementPools(pools, touched, n, now);
      r := Some(written);
    }
  }

  /** The batch counter pass: an update per counted batch, which fails the commit when a batch is missing. */
  method WriteBatchCounts(batches: map<string, TemplateBatch>, counts: map<string, nat>, review: Review, now: Timestamp)
    returns (r: Option<map<string, TemplateBatch>>)
    ensures r == AdjustBatches(batches, counts, review, now)
  {
    var written := batches;
    var missing := false;
    var todo := counts.Keys;
    while todo != {}
      invariant todo <= counts.Keys
      invariant written.Keys == batches.Keys
      invariant missing <==> !(counts.Keys - todo <= batches.Keys)
      invariant forall b :: b in batches ==>
        written[b] == (if b in counts && b !in todo then Shift(batches[b], counts[b], review, now) else batches[b])
      decreases todo
    {
      var b :| b in todo;
      if b in written {
        ShiftOne(batches, counts, todo, review, now, written, b);
        written := written[b := Shift(written[b], counts[b], review, now)];
      } else {
        missing := true;
      }
      todo := todo - {b};
    }
    assert counts.Keys - todo == counts.Keys;
    if missing {
      r := None;
    } else {
      AdjustedAll(batches, counts, review, now, written);
      r := Some(written);
    }
  }

  lemma AdjustedAll(batches: map<string, TemplateBatch>, counts: map<string, nat>, review: Review, now: Timestamp,
                    written: map<string, TemplateBatch>)
    requires counts.Keys <= batches.Keys && written.Keys == batches.Keys
    requires forall b :: b in batches ==>
      written[b] == (if b in counts then Shift(batches[b], counts[b], review, now) else batches[b])
    ensures AdjustBatches(batches, counts, review, now) == Some(written)
  {
    var m := AdjustBatches(batches, counts, review, now).value;
    assert m.Keys == written.Keys;
    forall b | b in m
      ensures m[b] == written[b]
    {
    }
    assert m == written;
  }

  lemma ShiftOne(batches: map<string, TemplateBatch>, counts: map<string, nat>, todo: set<string>, review: Review,
                 now: Timestamp, written: map<string, TemplateBatch>, b: string)
    requires b in todo && todo <= counts.Keys && b in batches && written.Keys == batches.Keys
    requires forall x :: x in batches ==>
      written[x] == (if x in counts && x !in todo then Shift(batches[x], counts[x], review, now) else batches[x])
    ensures var w := written[b := Shift(written[b], counts[b], review, now)];
      forall x :: x in batches ==>
        w[x] == (if x in counts && x !in todo - {b} then Shift(batches[x], counts[x], review, now) else batches[x])
  {
  }

  /** The status pass after the commit: each touched batch is re-read and rewritten only if its status changes. */
  method RecomputeStatuses(batches: map<string, TemplateBatch>, touched: set<string>, review: Review)
    returns (r: map<string, TemplateBatch>)
    ensures r == Restatus(batches, touched, review)
  {
    r := batches;
    var todo := touched;
    while todo != {}
      invariant todo <= touched
      invariant r.Keys == batches.Keys
      invariant forall b :: b in batches ==>
        r[b] == (if b in touched && b !in todo then batches[b].(status := NextStatus(review, batches[b])) else batches[b])
      decreases todo
    {
      var b :| b in todo;
      if b in r {
        var status := NextStatus(review, r[b]);
        if r[b].status != status {
          r := r[b := r[b].(status := status)];
        }
      }
      todo := todo - {b};
    }
  }

  /** The generate-batch item pass: one record per generated question, counting the queued writes. */
  method WriteGeneratedItems(qs: map<string, TemplateQuestion>, batchId: string, interest: string, level: string,
                             gameMode: string, number: nat, questions: seq<Question>, now: Timestamp)
    returns (r: map<string, TemplateQuestion>, writeCount: nat)
    ensures r == GenerateBatch.AddItems(qs, batchId, interest, level, gameMode, number, questions, now)
    ensures writeCount == |questions|
  {
    r := qs;
    writeCount := 0;
    while writeCount < |questions|
      invariant writeCount <= |questions|
      invariant r == GenerateBatch.AddItems(qs, batchId, interest, level, gameMode, number, questions[..writeCount], now)
    {
      var index := writeCount;
      assert questions[..index + 1][..index] == questions[..index];
      r := r[ItemId(batchId, index) := GenerateBatch.StoredQuestion(batchId, interest, level, gameMode, number, index, questions[index], now)];
      writeCount := writeCount + 1;
    }
    assert questions[..|questions|] == questions;
  }

  // ---------------------------------------------------------------------
  // The store and its handlers.
  // ---------------------------------------------------------------------

  lemma UnapprovedItemsAre(qs: map<string, TemplateQuestion>, ids: seq<string>, items: map<string, TemplateQuestion>)
    requires items.Keys == qs.Keys
    requires forall x :: x in qs ==> items[x] == if x in ids then UnapproveQuestions.UnapproveItem(qs[x]) else qs[x]
    ensures items == UnapproveQuestions.UnapproveItems(qs, ids)
  {
  }

  class TemplateDb {
    var questions: map<string, TemplateQuestion>
    var batches: map<string, TemplateBatch>
    var pools: map<string, Pool>

    constructor (s: Store)
      ensures State() == s
    {
      questions, batches, pools := s.questions, s.batches, s.pools;
    }

    function State(): Store
      reads this
    {
      Store(questions, batches, pools)
    }

    /** POST approve-questions. */
    method PostApproveQuestions(questionIds: Option<seq<string>>, adminId: Option<string>, now: Timestamp, commitOk: bool)
      returns (r: Result<nat, ModError>)
      modifies this
      ensures r == ApproveQuestions.Approve(old(State()), questionIds, adminId, now, commitOk).result
      ensures State() == ApproveQuestions.Approve(old(State()), questionIds, adminId, now, commitOk).store
    {
      if questionIds.None? || |questionIds.value| == 0 {
        return Err(MissingQuestionIds);
      }
      var ids := questionIds.value;
      if !AllFound(questions, ids) {
        return Err(QuestionNotFound);
      }
      var groups, counts := GroupRequest(questions, ids);
      var items := WriteItems(questions, ids, q => ApproveQuestions.ApproveItem(q, now, adminId));
      assert items == ApproveQuestions.ApproveItems(questions, ids, now, adminId);
      var merged := WritePools(pools, groups, |ids|, now);
      var adjusted := WriteBatchCounts(batches, counts, ApproveReview, now);
      if adjusted.None? {
        return Err(BatchNotFound);
      }
      if !commitOk {
        return Err(CommitFailed);
      }
      questions, pools, batches := items, merged, adjusted.value;
      batches := RecomputeStatuses(batches, counts.Keys, ApproveReview);
      r := Ok(|ids|);
    }

    /** POST reject-questions. */
    method PostRejectQuestions(questionIds: Option<seq<string>>, reason: Option<string>, now: Timestamp, commitOk: bool)
      returns (r: Result<nat, ModError>)
      modifies this
      ensures r == RejectQuestions.Reject(old(State()), questionIds, reason, now, commitOk).result
      ensures State() == RejectQuestions.Reject(old(State()), questionIds, reason, now, commitOk).store
    {
      if questionIds.None? || |questionIds.value| == 0 {
        return Err(MissingQuestionIds);
      }
      var ids := questionIds.value;
      if !AllFound(questions, ids) {
        return Err(QuestionNotFound);
      }
      var counts := CountPerBatch(questions, ids);
      var items := WriteItems(questions, ids, q => RejectQuestions.RejectItem(q, now, reason));
      assert items == RejectQuestions.RejectItems(questions, ids, now, reason);
      var adjusted := WriteBatchCounts(batches, counts, RejectReview, now);
      if adjusted.None? {
        return Err(BatchNotFound);
      }
      if !commitOk {
        return Err(CommitFailed);
      }
      questions, batches := items, adjusted.value;
      batches := RecomputeStatuses(batches, counts.Keys, RejectReview);
      r := Ok(|ids|);
    }

    /** POST unapprove-questions. */
    method PostUnapproveQuestions(questionIds: Option<seq<string>>, now: Timestamp, commitOk: bool)
      returns (r: Result<nat, ModError>)
      modifies this
      ensures r == UnapproveQuestions.Unapprove(old(State()), questionIds, now, commitOk).result
      ensures State() == UnapproveQuestions.Unapprove(old(State()), questionIds, now, commitOk).store
    {
      if questionIds.None? || |questionIds.value| == 0 {
        return Err(MissingQuestionIds);
      }
      var approved := UnapproveQuestions.ApprovedFilter(questions, questionIds.value);
      if |approved| == 0 {
        return Err(NoApprovedQuestions);
      }
      var groups, counts := GroupRequest(questions, approved);
      ApproveQuestions.PoolGroupsShape(questions, approved);
      var items := WriteItems(questions, approved, UnapproveQuestions.UnapproveItem);
      UnapprovedItemsAre(questions, approved, items);
      var decremented := WritePoolDecrements(pools, groups.Keys, |approved|, now);
      if decremented.None? {
        return Err(PoolNotFound);
      }
      var adjusted := WriteBatchCounts(batches, counts, UnapproveReview, now);
      if adjusted.None? {
        return Err(BatchNotFound);
      }
      if !commitOk {
        return Err(CommitFailed);
      }
      questions, pools, batches := items, decremented.value, adjusted.value;
      batches := RecomputeStatuses(batches, counts.Keys, UnapproveReview);
      r := Ok(|approved|);
    }

    /**
     * POST generate-batch. The batch record is written on its own before the
     * size check and the item commit; a failed commit deletes it again only
     * when the cleanup delete succeeds.
     */
    method PostGenerateBatch(interest: string, level: string, gameMode: string, questionsPerBatch: Option<int>,
                             generated: Result<seq<Question>, string>, now: Timestamp, commitOk: bool, deleteOk: bool)
      returns (r: Result<(string, nat), ModError>)
      modifies this
      ensures r == GenerateBatch.Generate(old(State()), interest, level, gameMode, questionsPerBatch, generated, now, commitOk, deleteOk).result
      ensures State() == GenerateBatch.Generate(old(State()), interest, level, gameMode, questionsPerBatch, generated, now, commitOk, deleteOk).store
    {
      if interest == "" || level == "" || gameMode == "" {
        return Err(MissingFields);
      }
      var number := |GenerateBatch.KeyBatches(batches, interest, level, gameMode)| + 1;
      var batchId := BatchId(interest, level, gameMode, number);
      if generated.Err? {
        return Err(GenerationFailed(generated.error));
      }
      var generatedQuestions := generated.value;
      if |generatedQuestions| == 0 {
        return Err(NoQuestionsGenerated);
      }
      var requested := if questionsPerBatch.Some? then questionsPerBatch.value else GenerateBatch.DEFAULT_QUESTIONS_PER_BATCH;
      var before := questions;
      batches := batches[batchId := GenerateBatch.NewBatch(batchId, interest, level, gameMode, number,
                                                           |generatedQuestions|, requested, now)];
      if |generatedQuestions| > GenerateBatch.MAX_BATCH_WRITES {
        return Err(TooManyQuestions(|generatedQuestions|));
      }
      var written, writeCount := WriteGeneratedItems(questions, batchId, interest, level, gameMode, number,
                                                     generatedQuestions, now);
      if !commitOk {
        if deleteOk {
          batches := batches - {batchId};
        }
        return Err(SaveFailed);
      }
      questions := written;
      r := Ok((batchId, writeCount));
    }

    /** POST update-question: one merged write to one item. */
    method PostUpdateQuestion(questionId: string, updates: Option<UpdateQuestion.QuestionUpdate>, now: Timestamp, commitOk: bool)
      returns (r: Result<(), ModError>)
      modifies this
      ensures r == UpdateQuestion.Update(old(State()), questionId, updates, now, commitOk).result
      ensures State() == UpdateQuestion.Update(old(State()), questionId, updates, now, commitOk).store
    {
      if questionId == "" {
        return Err(MissingQuestionId);
      }
      if updates.None? || UpdateQuestion.NoFields(updates.value) {
        return Err(NoUpdates);
      }
      if questionId !in questions {
        return Err(QuestionNotFound);
      }
      var u := updates.value;
      if UpdateQuestion.IndexRejected(u) {
        return Err(CorrectIndexOutOfBounds);
      }
      if !commitOk {
        return Err(CommitFailed);
      }
      var q := questions[questionId];
      questions := questions[questionId := q.(content := UpdateQuestion.ApplyUpdate(q.content, u), updatedAt := Some(now))];
      r := Ok(());
    }
  }
}
