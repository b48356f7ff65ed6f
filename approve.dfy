/**
 * The approve handler: every requested item becomes approved, each batch's
 * approved counter rises and its pending counter falls by the number of its
 * items in the request, each touched pool grows by the size of the whole
 * request, and the touched batches get their status recomputed.
 */
module ApproveQuestions {

  import opened Wrappers
  import opened Constants
  import opened TemplateTypes
  import opened TemplateStore

  /** The fields written on one approved item; `approvedBy` only for a non-empty admin id. */
  function ApproveItem(q: TemplateQuestion, now: Timestamp, adminId: Option<string>): TemplateQuestion
  {
    q.(status := Approved, approvedAt := Some(now),
       approvedBy := if adminId.Some? && adminId.value != "" then adminId else q.approvedBy)
  }

  /** The item writes of one request; a repeated id is written twice with the same fields. */
  function ApproveItems(qs: map<string, TemplateQuestion>, ids: seq<string>, now: Timestamp,
                        adminId: Option<string>): map<string, TemplateQuestion>
  {
    map x | x in qs :: if x in ids then ApproveItem(qs[x], now, adminId) else qs[x]
  }

  /** What the handler gathers per pool: the first item's key fields and every batch id seen. */
  datatype PoolGroup = PoolGroup(interest: string, level: string, gameMode: string, difficulty: string,
                                 batchIds: set<string>)

  /** The per-pool grouping, filled in request order. */
  function PoolGroupsOf(qs: map<string, TemplateQuestion>, ids: seq<string>): map<string, PoolGroup>
    requires AllFound(qs, ids)
    decreases |ids|
  {
    if |ids| == 0 then map[]
    else
      var m := PoolGroupsOf(qs, ids[..|ids| - 1]);
      var q := qs[ids[|ids| - 1]];
      var p := PoolOf(q);
      if p in m then m[p := m[p].(batchIds := m[p].batchIds + {q.batchId})]
      else m[p := PoolGroup(q.interest, q.level, q.gameMode, q.difficulty, {q.batchId})]
  }

  /** The batches of the request's items that lie in pool `p`. */
  function BatchesInPool(qs: map<string, TemplateQuestion>, ids: seq<string>, p: string): set<string>
  {
    set x | x in ids && x in qs && PoolOf(qs[x]) == p :: qs[x].batchId
  }

  /** The grouping has one entry per pool of the request, holding exactly that pool's batch ids. */
  lemma {:induction false} PoolGroupsShape(qs: map<string, TemplateQuestion>, ids: seq<string>)
    requires AllFound(qs, ids)
    ensures PoolGroupsOf(qs, ids).Keys == PoolsOf(qs, ids)
    ensures forall p :: p in PoolGroupsOf(qs, ids) ==> PoolGroupsOf(qs, ids)[p].batchIds == BatchesInPool(qs, ids, p)
    decreases |ids|
  {
    if |ids| > 0 {
      var pre := ids[..|ids| - 1];
      var x := ids[|ids| - 1];
      PoolGroupsShape(qs, pre);
      assert ids == pre + [x];
      assert PoolsOf(qs, ids) == PoolsOf(qs, pre) + {PoolOf(qs[x])};
      forall p | p in PoolGroupsOf(qs, ids)
        ensures PoolGroupsOf(qs, ids)[p].batchIds == BatchesInPool(qs, ids, p)
      {
        if p == PoolOf(qs[x]) {
          assert BatchesInPool(qs, ids, p) == BatchesInPool(qs, pre, p) + {qs[x].batchId};
        } else {
          assert BatchesInPool(qs, ids, p) == BatchesInPool(qs, pre, p);
        }
      }
    }
  }

  /**
   * The merged pool write: key fields from the group, the total incremented
   * by `n` (from zero for a new pool), the batch ids added as a set union.
   */
  function MergePool(existing: Option<Pool>, p: string, g: PoolGroup, n: nat, now: Timestamp): Pool
  {
    Pool(p, g.interest, g.level, g.gameMode, g.difficulty,
         (if existing.Some? then existing.value.totalQuestions else 0) + n,
         (if existing.Some? then existing.value.sourceBatches else {}) + g.batchIds,
         now)
  }

  function MergePools(pools: map<string, Pool>, groups: map<string, PoolGroup>, n: nat, now: Timestamp): map<string, Pool>
  {
    map p | p in pools.Keys + groups.Keys ::
      if p in groups then MergePool(if p in pools then Some(pools[p]) else None, p, groups[p], n, now) else pools[p]
  }

  /**
   * The handler as one transition: validation, the one commit of item,
   * pool and batch writes (all or nothing), then the status pass.
   */
  function Approve(s: Store, questionIds: Option<seq<string>>, adminId: Option<string>, now: Timestamp,
                   commitOk: bool): (o: Outcome<nat>)
    ensures o.result.Err? ==> o.store == s
    ensures questionIds.None? || questionIds.value == [] ==> o.result == Err(MissingQuestionIds)
    ensures o.result.Ok? ==> questionIds.Some? && o.result.value == |questionIds.value| > 0
  {
    if questionIds.None? || |questionIds.value| == 0 then Outcome(Err(MissingQuestionIds), s)
    else
      var ids := questionIds.value;
      if !AllFound(s.questions, ids) then Outcome(Err(QuestionNotFound), s)
      else
        var counts := BatchCountsOf(s.questions, ids);
        match AdjustBatches(s.batches, counts, ApproveReview, now)
        case None => Outcome(Err(BatchNotFound), s)
        case Some(adjusted) =>
          if !commitOk then Outcome(Err(CommitFailed), s)
          else Outcome(Ok(|ids|), Store(
            ApproveItems(s.questions, ids, now, adminId),
            Restatus(adjusted, counts.Keys, ApproveReview),
            MergePools(s.pools, PoolGroupsOf(s.questions, ids), |ids|, now)))
  }

  /**
   * On success every requested item is approved and stamped, `approvedBy`
   * is written only for a non-empty admin id, and no other item changes.
   */
  lemma ApprovedItems(s: Store, ids: seq<string>, adminId: Option<string>, now: Timestamp, commitOk: bool)
    requires Approve(s, Some(ids), adminId, now, commitOk).result.Ok?
    ensures var s2 := Approve(s, Some(ids), adminId, now, commitOk).store;
      && s2.questions.Keys == s.questions.Keys
      && (forall k :: 0 <= k < |ids| ==> s2.questions[ids[k]].status == Approved && s2.questions[ids[k]].approvedAt == Some(now))
      && (forall k :: 0 <= k < |ids| ==>
            s2.questions[ids[k]].approvedBy == if adminId.Some? && adminId.value != "" then adminId else s.questions[ids[k]].approvedBy)
      && (forall x :: x in s.questions && x !in ids ==> s2.questions[x] == s.questions[x])
  {
  }

  /** Each batch's three counters keep their sum and its total is unchanged. */
  lemma ApproveKeepsCounterSum(s: Store, questionIds: Option<seq<string>>, adminId: Option<string>, now: Timestamp,
                               commitOk: bool, b: string)
    requires b in s.batches
    ensures var s2 := Approve(s, questionIds, adminId, now, commitOk).store;
      && b in s2.batches
      && s2.batches[b].totalQuestions == s.batches[b].totalQuestions
      && s2.batches[b].approvedCount + s2.batches[b].pendingCount + s2.batches[b].rejectedCount
         == s.batches[b].approvedCount + s.batches[b].pendingCount + s.batches[b].rejectedCount
  {
  }

  /**
   * Each touched pool grows by the size of the whole request, not by its own
   * share, and its source batches gain the batches of its own items.
   */
  lemma ApprovePoolTotals(s: Store, ids: seq<string>, adminId: Option<string>, now: Timestamp, commitOk: bool, p: string)
    requires Approve(s, Some(ids), adminId, now, commitOk).result.Ok?
    ensures var s2 := Approve(s, Some(ids), adminId, now, commitOk).store;
      && (p in PoolsOf(s.questions, ids) ==>
            && p in s2.pools
            && s2.pools[p].totalQuestions == (if p in s.pools then s.pools[p].totalQuestions else 0) + |ids|
            && s2.pools[p].sourceBatches == (if p in s.pools then s.pools[p].sourceBatches else {}) + BatchesInPool(s.questions, ids, p))
      && (p !in PoolsOf(s.questions, ids) ==> (p in s2.pools <==> p in s.pools) && (p in s.pools ==> s2.pools[p] == s.pools[p]))
  {
    PoolGroupsShape(s.questions, ids);
  }

  /** The request's items, all pending, given in one pool and without repetition. */
  predicate WellFormedApproval(s: Store, ids: seq<string>)
  {
    && |ids| > 0 && Distinct(ids) && AllFound(s.questions, ids)
    && (forall k :: 0 <= k < |ids| ==> s.questions[ids[k]].status == Pending)
    && (forall k :: 0 <= k < |ids| ==> PoolOf(s.questions[ids[k]]) == PoolOf(s.questions[ids[0]]))
  }

  lemma ApproveItemSets(qs: map<string, TemplateQuestion>, ids: seq<string>, now: Timestamp, adminId: Option<string>, b: string)
    requires AllFound(qs, ids)
    requires forall k :: 0 <= k < |ids| ==> qs[ids[k]].status == Pending
    ensures var qs2 := ApproveItems(qs, ids, now, adminId);
      && ItemsOf(qs2, b) == ItemsOf(qs, b)
      && InBatch(qs, ids, b) <= ItemsWith(qs, b, Pending)
      && ItemsWith(qs2, b, Approved) == ItemsWith(qs, b, Approved) + InBatch(qs, ids, b)
      && ItemsWith(qs, b, Approved) * InBatch(qs, ids, b) == {}
      && ItemsWith(qs2, b, Pending) == ItemsWith(qs, b, Pending) - InBatch(qs, ids, b)
      && ItemsWith(qs2, b, Rejected) == ItemsWith(qs, b, Rejected)
  {
    var qs2 := ApproveItems(qs, ids, now, adminId);
    forall x | x in ids ensures x in qs && qs[x].status == Pending {
      var k :| 0 <= k < |ids| && ids[k] == x;
    }
    assert ItemsWith(qs2, b, Approved) == ItemsWith(qs, b, Approved) + InBatch(qs, ids, b);
    assert ItemsWith(qs2, b, Pending) == ItemsWith(qs, b, Pending) - InBatch(qs, ids, b);
    assert ItemsWith(qs2, b, Rejected) == ItemsWith(qs, b, Rejected);
  }

  lemma ApprovePoolSets(qs: map<string, TemplateQuestion>, ids: seq<string>, now: Timestamp, adminId: Option<string>, p: string)
    requires AllFound(qs, ids)
    requires forall k :: 0 <= k < |ids| ==> qs[ids[k]].status == Pending
    ensures var qs2 := ApproveItems(qs, ids, now, adminId);
      var mine := set x | x in ids && x in qs && PoolOf(qs[x]) == p;
      && ApprovedInPool(qs2, p) == ApprovedInPool(qs, p) + mine
      && ApprovedInPool(qs, p) * mine == {}
  {
    forall x | x in ids ensures x in qs && qs[x].status == Pending {
      var k :| 0 <= k < |ids| && ids[k] == x;
    }
  }

  /** When the handler succeeds, and the store it then writes. */
  lemma ApproveOkShape(s: Store, ids: seq<string>, adminId: Option<string>, now: Timestamp, commitOk: bool)
    ensures Approve(s, Some(ids), adminId, now, commitOk).result.Ok? <==>
      |ids| > 0 && AllFound(s.questions, ids) && BatchCountsOf(s.questions, ids).Keys <= s.batches.Keys && commitOk
    ensures Approve(s, Some(ids), adminId, now, commitOk).result.Ok? ==>
      var s2 := Approve(s, Some(ids), adminId, now, commitOk).store;
      var counts := BatchCountsOf(s.questions, ids);
      && s2.questions == ApproveItems(s.questions, ids, now, adminId)
      && s2.pools == MergePools(s.pools, PoolGroupsOf(s.questions, ids), |ids|, now)
      && s2.batches.Keys == s.batches.Keys
      && (forall b :: b in s.batches ==>
            && s2.batches[b].totalQuestions == s.batches[b].totalQuestions
            && s2.batches[b].approvedCount == s.batches[b].approvedCount + Get(counts, b)
            && s2.batches[b].pendingCount == s.batches[b].pendingCount - Get(counts, b)
            && s2.batches[b].rejectedCount == s.batches[b].rejectedCount
            && s2.batches[b].status
                 == (if b in counts then NextStatus(ApproveReview, s2.batches[b]) else s.batches[b].status))
  {
    if |ids| > 0 && AllFound(s.questions, ids) && BatchCountsOf(s.questions, ids).Keys <= s.batches.Keys {
      var counts := BatchCountsOf(s.questions, ids);
      ReviewedBatches(s.batches, counts, ApproveReview, now);
    }
  }

  /** One batch's counters stay in step with its items across an approval. */
  lemma ApproveBatchStaysMatched(qs: map<string, TemplateQuestion>, ids: seq<string>, now: Timestamp,
                                 adminId: Option<string>, b: string, ob: TemplateBatch, nb: TemplateBatch)
    requires AllFound(qs, ids) && Distinct(ids)
    requires forall k :: 0 <= k < |ids| ==> qs[ids[k]].status == Pending
    requires ob.totalQuestions == |ItemsOf(qs, b)| && ob.approvedCount == |ItemsWith(qs, b, Approved)|
    requires ob.pendingCount == |ItemsWith(qs, b, Pending)| && ob.rejectedCount == |ItemsWith(qs, b, Rejected)|
    requires nb.totalQuestions == ob.totalQuestions && nb.rejectedCount == ob.rejectedCount
    requires nb.approvedCount == ob.approvedCount + Get(BatchCountsOf(qs, ids), b)
    requires nb.pendingCount == ob.pendingCount - Get(BatchCountsOf(qs, ids), b)
    ensures var qs2 := ApproveItems(qs, ids, now, adminId);
      && nb.totalQuestions == |ItemsOf(qs2, b)| && nb.approvedCount == |ItemsWith(qs2, b, Approved)|
      && nb.pendingCount == |ItemsWith(qs2, b, Pending)| && nb.rejectedCount == |ItemsWith(qs2, b, Rejected)|
  {
    ApproveItemSets(qs, ids, now, adminId, b);
    BatchCountIsCardinality(qs, ids, b);
    CardinalityOfDisjointUnion(ItemsWith(qs, b, Approved), InBatch(qs, ids, b));
    CardinalityOfDifference(ItemsWith(qs, b, Pending), InBatch(qs, ids, b));
  }

  /** One pool's total stays in step with its approved items across a one-pool approval. */
  lemma ApprovePoolStaysMatched(qs: map<string, TemplateQuestion>, pools: map<string, Pool>, ids: seq<string>,
                                now: Timestamp, adminId: Option<string>, p: string)
    requires |ids| > 0 && Distinct(ids) && AllFound(qs, ids)
    requires forall k :: 0 <= k < |ids| ==> qs[ids[k]].status == Pending
    requires forall k :: 0 <= k < |ids| ==> PoolOf(qs[ids[k]]) == PoolOf(qs[ids[0]])
    requires p in pools ==> pools[p].totalQuestions == |ApprovedInPool(qs, p)|
    requires p !in pools ==> ApprovedInPool(qs, p) == {}
    ensures var pools2 := MergePools(pools, PoolGroupsOf(qs, ids), |ids|, now);
      p in pools2 ==> pools2[p].totalQuestions == |ApprovedInPool(ApproveItems(qs, ids, now, adminId), p)|
  {
    var p0 := PoolOf(qs[ids[0]]);
    var groups := PoolGroupsOf(qs, ids);
    PoolGroupsShape(qs, ids);
    forall x | x in ids ensures x in qs && PoolOf(qs[x]) == p0 {
      var k :| 0 <= k < |ids| && ids[k] == x;
    }
    assert PoolsOf(qs, ids) == {p0};
    ApprovePoolSets(qs, ids, now, adminId, p);
    var mine := set x | x in ids && x in qs && PoolOf(qs[x]) == p;
    OnePoolShare(qs, ids, p0, p);
    CardinalityOfDisjointUnion(ApprovedInPool(qs, p), mine);
    MergePoolsAt(pools, groups, |ids|, now, p);
    if p == p0 {
      DistinctIdSet(ids);
    }
  }

  /** The merged pool map holds the merge for a grouped pool and the old record otherwise. */
  lemma MergePoolsAt(pools: map<string, Pool>, groups: map<string, PoolGroup>, n: nat, now: Timestamp, p: string)
    ensures var m := MergePools(pools, groups, n, now);
      && (p in m <==> p in pools || p in groups)
      && (p in groups ==> m[p].totalQuestions == (if p in pools then pools[p].totalQuestions else 0) + n)
      && (p !in groups && p in pools ==> m[p] == pools[p])
  {
  }

  /** When all the request's items lie in pool `p0`, pool `p`'s share is all of them or none. */
  lemma OnePoolShare(qs: map<string, TemplateQuestion>, ids: seq<string>, p0: string, p: string)
    requires forall x :: x in ids ==> x in qs && PoolOf(qs[x]) == p0
    ensures (set x | x in ids && x in qs && PoolOf(qs[x]) == p) == if p == p0 then IdSet(ids) else {}
  {
  }

  lemma ApproveKeepsBatchCounters(s: Store, ids: seq<string>, adminId: Option<string>, now: Timestamp, commitOk: bool)
    requires BatchCountersMatch(s) && WellFormedApproval(s, ids)
    ensures BatchCountersMatch(Approve(s, Some(ids), adminId, now, commitOk).store)
  {
    var s2 := Approve(s, Some(ids), adminId, now, commitOk).store;
    ApproveOkShape(s, ids, adminId, now, commitOk);
    if Approve(s, Some(ids), adminId, now, commitOk).result.Ok? {
      forall b | b in s2.batches
        ensures BatchMatches(s2, b)
      {
        assert BatchMatches(s, b);
        ApproveBatchStaysMatched(s.questions, ids, now, adminId, b, s.batches[b], s2.batches[b]);
      }
    }
  }

  lemma ApproveKeepsPoolTotals(s: Store, ids: seq<string>, adminId: Option<string>, now: Timestamp, commitOk: bool)
    requires PoolTotalsMatch(s) && ParentsExist(s) && WellFormedApproval(s, ids)
    ensures PoolTotalsMatch(Approve(s, Some(ids), adminId, now, commitOk).store)
  {
    var s2 := Approve(s, Some(ids), adminId, now, commitOk).store;
    ApproveOkShape(s, ids, adminId, now, commitOk);
    if Approve(s, Some(ids), adminId, now, commitOk).result.Ok? {
      forall p | p in s2.pools
        ensures s2.pools[p].totalQuestions == |ApprovedInPool(s2.questions, p)|
      {
        if p !in s.pools {
          assert ApprovedInPool(s.questions, p) == {};
        }
        ApprovePoolStaysMatched(s.questions, s.pools, ids, now, adminId, p);
      }
    }
  }

  lemma ApproveKeepsParents(s: Store, ids: seq<string>, adminId: Option<string>, now: Timestamp, commitOk: bool)
    requires ParentsExist(s) && WellFormedApproval(s, ids)
    ensures ParentsExist(Approve(s, Some(ids), adminId, now, commitOk).store)
  {
    var s2 := Approve(s, Some(ids), adminId, now, commitOk).store;
    ApproveOkShape(s, ids, adminId, now, commitOk);
    if Approve(s, Some(ids), adminId, now, commitOk).result.Ok? {
      var qs := s.questions;
      var p0 := PoolOf(qs[ids[0]]);
      var groups := PoolGroupsOf(qs, ids);
      PoolGroupsShape(qs, ids);
      ApproveItemsFields(qs, ids, now, adminId);
      MergePoolsKeys(s.pools, groups, |ids|, now);
      assert p0 in PoolsOf(qs, ids);
      forall x | x in s2.questions
        ensures s2.questions[x].batchId in s2.batches
        ensures s2.questions[x].status == Approved ==> PoolOf(s2.questions[x]) in s2.pools
      {
        if x in ids {
          var k :| 0 <= k < |ids| && ids[k] == x;
          assert PoolOf(qs[x]) == p0;
        }
      }
    }
  }

  /** Approval rewrites only the status fields: every item keeps its batch and its pool. */
  lemma ApproveItemsFields(qs: map<string, TemplateQuestion>, ids: seq<string>, now: Timestamp, adminId: Option<string>)
    ensures var qs2 := ApproveItems(qs, ids, now, adminId);
      && qs2.Keys == qs.Keys
      && forall x :: x in qs ==>
           && qs2[x].batchId == qs[x].batchId && PoolOf(qs2[x]) == PoolOf(qs[x])
           && (x !in ids ==> qs2[x] == qs[x])
  {
  }

  lemma MergePoolsKeys(pools: map<string, Pool>, groups: map<string, PoolGroup>, n: nat, now: Timestamp)
    ensures MergePools(pools, groups, n, now).Keys == pools.Keys + groups.Keys
  {
  }

  /**
   * Approving distinct pending items that share one pool keeps every batch
   * counter and pool total equal to the item statuses it summarises.
   */
  lemma ApproveKeepsCountersMatch(s: Store, ids: seq<string>, adminId: Option<string>, now: Timestamp, commitOk: bool)
    requires CountersMatch(s)
    requires WellFormedApproval(s, ids)
    ensures CountersMatch(Approve(s, Some(ids), adminId, now, commitOk).store)
  {
    ApproveKeepsBatchCounters(s, ids, adminId, now, commitOk);
    ApproveKeepsPoolTotals(s, ids, adminId, now, commitOk);
    ApproveKeepsParents(s, ids, adminId, now, commitOk);
  }

  /** Re-approving an approved item leaves its batch's approved set as it was. */
  lemma ReapprovedItemSet(qs: map<string, TemplateQuestion>, ids: seq<string>, adminId: Option<string>, now: Timestamp)
    requires |ids| == 1 && ids[0] in qs && qs[ids[0]].status == Approved
    ensures ItemsWith(ApproveItems(qs, ids, now, adminId), qs[ids[0]].batchId, Approved) == ItemsWith(qs, qs[ids[0]].batchId, Approved)
  {
  }

  /**
   * With no status check, approving an already-approved item counts it a
   * second time: the approved counter rises although no item changed status.
   */
  lemma ReapprovalBreaksCounters(s: Store, ids: seq<string>, adminId: Option<string>, now: Timestamp)
    requires |ids| == 1 && ids[0] in s.questions && s.questions[ids[0]].status == Approved
    requires s.questions[ids[0]].batchId in s.batches && BatchMatches(s, s.questions[ids[0]].batchId)
    ensures Approve(s, Some(ids), adminId, now, true).result.Ok?
    ensures var s2 := Approve(s, Some(ids), adminId, now, true).store;
      var b := s.questions[ids[0]].batchId;
      b in s2.batches && s2.batches[b].approvedCount == |ItemsWith(s2.questions, b, Approved)| + 1
  {
    var qs := s.questions;
    var b := qs[ids[0]].batchId;
    assert BatchCountsOf(qs, ids) == map[b := 1] by {
      assert ids[..0] == [];
    }
    ApproveOkShape(s, ids, adminId, now, true);
    ReapprovedItemSet(qs, ids, adminId, now);
  }

  /** Approving two pending items of two pools adds exactly one approved item to the first pool. */
  lemma TwoPoolItemSets(qs: map<string, TemplateQuestion>, ids: seq<string>, adminId: Option<string>, now: Timestamp)
    requires |ids| == 2 && ids[0] in qs && ids[1] in qs
    requires qs[ids[0]].status == Pending && qs[ids[1]].status == Pending
    requires PoolOf(qs[ids[0]]) != PoolOf(qs[ids[1]])
    ensures var p := PoolOf(qs[ids[0]]);
      |ApprovedInPool(ApproveItems(qs, ids, now, adminId), p)| == |ApprovedInPool(qs, p)| + 1
  {
    var p := PoolOf(qs[ids[0]]);
    ApprovePoolSets(qs, ids, now, adminId, p);
    var mine := set z | z in ids && z in qs && PoolOf(qs[z]) == p;
    assert ids == [ids[0], ids[1]];
    assert mine == {ids[0]};
    CardinalityOfDisjointUnion(ApprovedInPool(qs, p), mine);
  }

  /**
   * Two pending items from two pools: each pool's total grows by two,
   * although each pool gains a single approved item.
   */
  lemma TwoPoolApprovalOvercounts(s: Store, ids: seq<string>, adminId: Option<string>, now: Timestamp)
    requires PoolTotalsMatch(s) && ParentsExist(s)
    requires |ids| == 2 && ids[0] in s.questions && ids[1] in s.questions
    requires s.questions[ids[0]].status == Pending && s.questions[ids[1]].status == Pending
    requires PoolOf(s.questions[ids[0]]) != PoolOf(s.questions[ids[1]])
    ensures Approve(s, Some(ids), adminId, now, true).result.Ok?
    ensures var s2 := Approve(s, Some(ids), adminId, now, true).store;
      var p := PoolOf(s.questions[ids[0]]);
      p in s2.pools && s2.pools[p].totalQuestions == |ApprovedInPool(s2.questions, p)| + 1
  {
    var qs := s.questions;
    var p := PoolOf(qs[ids[0]]);
    assert BatchCountsOf(qs, ids[..1]).Keys == {qs[ids[0]].batchId} by {
      assert ids[..1][..0] == [];
    }
    assert BatchCountsOf(qs, ids).Keys == {qs[ids[0]].batchId, qs[ids[1]].batchId};
    ApproveOkShape(s, ids, adminId, now, true);
    ApprovePoolTotals(s, ids, adminId, now, true, p);
    assert p in PoolsOf(qs, ids);
    TwoPoolItemSets(qs, ids, adminId, now);
    if p !in s.pools {
      assert ApprovedInPool(qs, p) == {};
    }
  }
}
