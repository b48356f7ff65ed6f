/**
 * The reject handler: every requested item becomes rejected (with the
 * reason when one is given), each batch's rejected counter rises and its
 * pending counter falls by its share of the request, and the touched
 * batches get their status recomputed. Pools are not touched.
 */
module RejectQuestions {

  import opened Wrappers
  import opened Constants
  import opened TemplateTypes
  import opened TemplateStore

  /** The fields written on one rejected item; the reason only when it is a non-empty string. */
  function RejectItem(q: TemplateQuestion, now: Timestamp, reason: Option<string>): TemplateQuestion
  {
    q.(status := Rejected, rejectedAt := Some(now),
       rejectionReason := if reason.Some? && reason.value != "" then reason else q.rejectionReason)
  }

  function RejectItems(qs: map<string, TemplateQuestion>, ids: seq<string>, now: Timestamp,
                       reason: Option<string>): map<string, TemplateQuestion>
  {
    map x | x in qs :: if x in ids then RejectItem(qs[x], now, reason) else qs[x]
  }

  /** The handler as one transition; a missing item or batch fails the one commit. */
  function Reject(s: Store, questionIds: Option<seq<string>>, reason: Option<string>, now: Timestamp,
                  commitOk: bool): (o: Outcome<nat>)
    ensures o.result.Err? ==> o.store == s
    ensures questionIds.None? || questionIds.value == [] ==> o.result == Err(MissingQuestionIds)
    ensures o.result.Ok? ==> questionIds.Some? && o.result.value == |questionIds.value| > 0
    ensures o.store.pools == s.pools
  {
    if questionIds.None? || |questionIds.value| == 0 then Outcome(Err(MissingQuestionIds), s)
    else
      var ids := questionIds.value;
      if !AllFound(s.questions, ids) then Outcome(Err(QuestionNotFound), s)
      else
        var counts := BatchCountsOf(s.questions, ids);
        match AdjustBatches(s.batches, counts, RejectReview, now)
        case None => Outcome(Err(BatchNotFound), s)
        case Some(adjusted) =>
          if !commitOk then Outcome(Err(CommitFailed), s)
          else Outcome(Ok(|ids|), Store(
            RejectItems(s.questions, ids, now, reason),
            Restatus(adjusted, counts.Keys, RejectReview),
            s.pools))
  }

  /** When the handler succeeds, and the store it then writes. */
  lemma RejectOkShape(s: Store, ids: seq<string>, reason: Option<string>, now: Timestamp, commitOk: bool)
    ensures Reject(s, Some(ids), reason, now, commitOk).result.Ok? <==>
      |ids| > 0 && AllFound(s.questions, ids) && BatchCountsOf(s.questions, ids).Keys <= s.batches.Keys && commitOk
    ensures Reject(s, Some(ids), reason, now, commitOk).result.Ok? ==>
      var s2 := Reject(s, Some(ids), reason, now, commitOk).store;
      var counts := BatchCountsOf(s.questions, ids);
      && s2.questions == RejectItems(s.questions, ids, now, reason)
      && s2.pools == s.pools
      && s2.batches.Keys == s.batches.Keys
      && (forall b :: b in s.batches ==>
            && s2.batches[b].totalQuestions == s.batches[b].totalQuestions
            && s2.batches[b].approvedCount == s.batches[b].approvedCount
            && s2.batches[b].pendingCount == s.batches[b].pendingCount - Get(counts, b)
            && s2.batches[b].rejectedCount == s.batches[b].rejectedCount + Get(counts, b)
            && s2.batches[b].status
                 == (if b in counts then NextStatus(RejectReview, s2.batches[b]) else s.batches[b].status))
  {
    if |ids| > 0 && AllFound(s.questions, ids) && BatchCountsOf(s.questions, ids).Keys <= s.batches.Keys {
      var counts := BatchCountsOf(s.questions, ids);
      ReviewedBatches(s.batches, counts, RejectReview, now);
    }
  }

  /**
   * On success every requested item is rejected and stamped, the reason is
   * written only when it is non-empty, and no other item changes.
   */
  lemma RejectedItems(s: Store, ids: seq<string>, reason: Option<string>, now: Timestamp, commitOk: bool)
    requires Reject(s, Some(ids), reason, now, commitOk).result.Ok?
    ensures var s2 := Reject(s, Some(ids), reason, now, commitOk).store;
      && s2.questions.Keys == s.questions.Keys
      && (forall k :: 0 <= k < |ids| ==> s2.questions[ids[k]].status == Rejected && s2.questions[ids[k]].rejectedAt == Some(now))
      && (forall k :: 0 <= k < |ids| ==>
            s2.questions[ids[k]].rejectionReason == if reason.Some? && reason.value != "" then reason else s.questions[ids[k]].rejectionReason)
      && (forall x :: x in s.questions && x !in ids ==> s2.questions[x] == s.questions[x])
  {
    RejectOkShape(s, ids, reason, now, commitOk);
  }

  /** Each batch's counters keep their sum and its total is unchanged, whatever the outcome. */
  lemma RejectKeepsCounterSum(s: Store, questionIds: Option<seq<string>>, reason: Option<string>, now: Timestamp,
                              commitOk: bool, b: string)
    requires b in s.batches
    ensures var s2 := Reject(s, questionIds, reason, now, commitOk).store;
      && b in s2.batches
      && s2.batches[b].totalQuestions == s.batches[b].totalQuestions
      && s2.batches[b].approvedCount + s2.batches[b].pendingCount + s2.batches[b].rejectedCount
         == s.batches[b].approvedCount + s.batches[b].pendingCount + s.batches[b].rejectedCount
  {
  }

  lemma RejectItemSets(qs: map<string, TemplateQuestion>, ids: seq<string>, now: Timestamp, reason: Option<string>, b: string)
    requires AllFound(qs, ids)
    requires forall k :: 0 <= k < |ids| ==> qs[ids[k]].status == Pending
    ensures var qs2 := RejectItems(qs, ids, now, reason);
      && ItemsOf(qs2, b) == ItemsOf(qs, b)
      && InBatch(qs, ids, b) <= ItemsWith(qs, b, Pending)
      && ItemsWith(qs2, b, Rejected) == ItemsWith(qs, b, Rejected) + InBatch(qs, ids, b)
      && ItemsWith(qs, b, Rejected) * InBatch(qs, ids, b) == {}
      && ItemsWith(qs2, b, Pending) == ItemsWith(qs, b, Pending) - InBatch(qs, ids, b)
      && ItemsWith(qs2, b, Approved) == ItemsWith(qs, b, Approved)
  {
    var qs2 := RejectItems(qs, ids, now, reason);
    forall x | x in ids ensures x in qs && qs[x].status == Pending {
      var k :| 0 <= k < |ids| && ids[k] == x;
    }
    assert ItemsWith(qs2, b, Rejected) == ItemsWith(qs, b, Rejected) + InBatch(qs, ids, b);
    assert ItemsWith(qs2, b, Pending) == ItemsWith(qs, b, Pending) - InBatch(qs, ids, b);
    assert ItemsWith(qs2, b, Approved) == ItemsWith(qs, b, Approved);
  }

  lemma RejectBatchStaysMatched(qs: map<string, TemplateQuestion>, ids: seq<string>, now: Timestamp,
                                reason: Option<string>, b: string, ob: TemplateBatch, nb: TemplateBatch)
    requires AllFound(qs, ids) && Distinct(ids)
    requires forall k :: 0 <= k < |ids| ==> qs[ids[k]].status == Pending
    requires ob.totalQuestions == |ItemsOf(qs, b)| && ob.approvedCount == |ItemsWith(qs, b, Approved)|
    requires ob.pendingCount == |ItemsWith(qs, b, Pending)| && ob.rejectedCount == |ItemsWith(qs, b, Rejected)|
    requires nb.totalQuestions == ob.totalQuestions && nb.approvedCount == ob.approvedCount
    requires nb.rejectedCount == ob.rejectedCount + Get(BatchCountsOf(qs, ids), b)
    requires nb.pendingCount == ob.pendingCount - Get(BatchCountsOf(qs, ids), b)
    ensures var qs2 := RejectItems(qs, ids, now, reason);
      && nb.totalQuestions == |ItemsOf(qs2, b)| && nb.approvedCount == |ItemsWith(qs2, b, Approved)|
      && nb.pendingCount == |ItemsWith(qs2, b, Pending)| && nb.rejectedCount == |ItemsWith(qs2, b, Rejected)|
  {
    RejectItemSets(qs, ids, now, reason, b);
    BatchCountIsCardinality(qs, ids, b);
    CardinalityOfDisjointUnion(ItemsWith(qs, b, Rejected), InBatch(qs, ids, b));
    CardinalityOfDifference(ItemsWith(qs, b, Pending), InBatch(qs, ids, b));
  }

  /** Rejecting pending items leaves every pool's approved set as it was. */
  lemma RejectKeepsApprovedSets(qs: map<string, TemplateQuestion>, ids: seq<string>, now: Timestamp,
                                reason: Option<string>, p: string)
    requires AllFound(qs, ids)
    requires forall k :: 0 <= k < |ids| ==> qs[ids[k]].status == Pending
    ensures ApprovedInPool(RejectItems(qs, ids, now, reason), p) == ApprovedInPool(qs, p)
  {
    forall x | x in ids ensures x in qs && qs[x].status == Pending {
      var k :| 0 <= k < |ids| && ids[k] == x;
    }
  }

  lemma RejectKeepsBatchCounters(s: Store, ids: seq<string>, reason: Option<string>, now: Timestamp, commitOk: bool)
    requires BatchCountersMatch(s)
    requires Distinct(ids) && AllFound(s.questions, ids)
    requires forall k :: 0 <= k < |ids| ==> s.questions[ids[k]].status == Pending
    ensures BatchCountersMatch(Reject(s, Some(ids), reason, now, commitOk).store)
  {
    var s2 := Reject(s, Some(ids), reason, now, commitOk).store;
    RejectOkShape(s, ids, reason, now, commitOk);
    if Reject(s, Some(ids), reason, now, commitOk).result.Ok? {
      forall b | b in s2.batches
        ensures BatchMatches(s2, b)
      {
        assert BatchMatches(s, b);
        RejectBatchStaysMatched(s.questions, ids, now, reason, b, s.batches[b], s2.batches[b]);
      }
    }
  }

  lemma RejectKeepsPoolTotals(s: Store, ids: seq<string>, reason: Option<string>, now: Timestamp, commitOk: bool)
    requires PoolTotalsMatch(s) && ParentsExist(s) && AllFound(s.questions, ids)
    requires forall k :: 0 <= k < |ids| ==> s.questions[ids[k]].status == Pending
    ensures PoolTotalsMatch(Reject(s, Some(ids), reason, now, commitOk).store)
    ensures ParentsExist(Reject(s, Some(ids), reason, now, commitOk).store)
  {
    var s2 := Reject(s, Some(ids), reason, now, commitOk).store;
    RejectOkShape(s, ids, reason, now, commitOk);
    if Reject(s, Some(ids), reason, now, commitOk).result.Ok? {
      var qs2 := RejectItems(s.questions, ids, now, reason);
      forall p | p in s.pools
        ensures s.pools[p].totalQuestions == |ApprovedInPool(qs2, p)|
      {
        RejectKeepsApprovedSets(s.questions, ids, now, reason, p);
      }
      RejectApprovesNothing(s.questions, ids, now, reason);
      ParentsKeptWithoutApprovals(s, s2);
    }
  }

  lemma RejectApprovesNothing(qs: map<string, TemplateQuestion>, ids: seq<string>, now: Timestamp, reason: Option<string>)
    ensures NoNewApprovals(qs, RejectItems(qs, ids, now, reason))
  {
  }

  /** Rejecting distinct pending items keeps every counter in step with the statuses. */
  lemma RejectKeepsCountersMatch(s: Store, ids: seq<string>, reason: Option<string>, now: Timestamp, commitOk: bool)
    requires CountersMatch(s)
    requires Distinct(ids) && AllFound(s.questions, ids)
    requires forall k :: 0 <= k < |ids| ==> s.questions[ids[k]].status == Pending
    ensures CountersMatch(Reject(s, Some(ids), reason, now, commitOk).store)
  {
    RejectKeepsBatchCounters(s, ids, reason, now, commitOk);
    RejectKeepsPoolTotals(s, ids, reason, now, commitOk);
  }

  /** Rejecting an approved item is not refused; it leaves its batch's approved set one smaller. */
  lemma RejectedApprovedItemSet(qs: map<string, TemplateQuestion>, ids: seq<string>, now: Timestamp, reason: Option<string>)
    requires |ids| == 1 && ids[0] in qs && qs[ids[0]].status == Approved
    ensures var b := qs[ids[0]].batchId;
      |ItemsWith(RejectItems(qs, ids, now, reason), b, Approved)| + 1 == |ItemsWith(qs, b, Approved)|
  {
    var b := qs[ids[0]].batchId;
    assert ItemsWith(RejectItems(qs, ids, now, reason), b, Approved) == ItemsWith(qs, b, Approved) - {ids[0]};
  }

  /**
   * Rejecting an already-approved item is accepted: its pending counter
   * falls and its approved counter stays, so the batch overstates its
   * approved items by one.
   */
  lemma RejectingApprovedBreaksCounters(s: Store, ids: seq<string>, reason: Option<string>, now: Timestamp)
    requires |ids| == 1 && ids[0] in s.questions && s.questions[ids[0]].status == Approved
    requires s.questions[ids[0]].batchId in s.batches && BatchMatches(s, s.questions[ids[0]].batchId)
    ensures Reject(s, Some(ids), reason, now, true).result.Ok?
    ensures var s2 := Reject(s, Some(ids), reason, now, true).store;
      var b := s.questions[ids[0]].batchId;
      b in s2.batches && s2.batches[b].approvedCount == |ItemsWith(s2.questions, b, Approved)| + 1
  {
    var qs := s.questions;
    var b := qs[ids[0]].batchId;
    assert BatchCountsOf(qs, ids) == map[b := 1] by {
      assert ids[..0] == [];
    }
    RejectOkShape(s, ids, reason, now, true);
    RejectedApprovedItemSet(qs, ids, now, reason);
  }
}
