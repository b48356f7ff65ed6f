/**
 * The moderation store: template questions, batches and approved-question
 * pools, each a table from document id to record. This module holds what the
 * moderation handlers share: per-batch counting of a request, the counter
 * shift a review applies to a batch, the status rules, and the invariant that
 * a batch's counters and a pool's total agree with the item statuses.
 */
module TemplateStore {

  import opened Wrappers
  import opened Constants
  import opened TemplateTypes

  datatype Store = Store(
    questions: map<string, TemplateQuestion>,
    batches: map<string, TemplateBatch>,
    pools: map<string, Pool>)

  /** Why a moderation handler fails; on every error the store is left as it was. */
  datatype ModError =
    | MissingQuestionIds
    | QuestionNotFound
    | BatchNotFound
    | PoolNotFound
    | CommitFailed
    | NoApprovedQuestions
    | MissingFields
    | GenerationFailed(message: string)
    | NoQuestionsGenerated
    | TooManyQuestions(count: nat)
    | SaveFailed
    | MissingQuestionId
    | NoUpdates
    | CorrectIndexOutOfBounds

  /** A handler's response together with the store it leaves behind. */
  datatype Outcome<T> = Outcome(result: Result<T, ModError>, store: Store)

  /** The three review actions; each has its own counter shift and its own status rule. */
  datatype Review = ApproveReview | RejectReview | UnapproveReview

  predicate AllFound(qs: map<string, TemplateQuestion>, ids: seq<string>)
  {
    forall k :: 0 <= k < |ids| ==> ids[k] in qs
  }

  function Get(m: map<string, nat>, k: string): nat
  {
    if k in m then m[k] else 0
  }

  /**
   * How many request items fall in each batch, in the order the handler fills
   * its batch-count map; duplicate ids are counted once per occurrence.
   */
  function BatchCountsOf(qs: map<string, TemplateQuestion>, ids: seq<string>): (m: map<string, nat>)
    requires AllFound(qs, ids)
    decreases |ids|
  {
    if |ids| == 0 then map[]
    else
      var m := BatchCountsOf(qs, ids[..|ids| - 1]);
      var b := qs[ids[|ids| - 1]].batchId;
      m[b := Get(m, b) + 1]
  }

  /** The request ids that are items of batch `b`. */
  function InBatch(qs: map<string, TemplateQuestion>, ids: seq<string>, b: string): set<string>
  {
    set x | x in ids && x in qs && qs[x].batchId == b
  }

  lemma DistinctSplit(ids: seq<string>)
    requires Distinct(ids) && |ids| > 0
    ensures Distinct(ids[..|ids| - 1]) && ids[|ids| - 1] !in ids[..|ids| - 1]
    ensures ids == ids[..|ids| - 1] + [ids[|ids| - 1]]
  {
  }

  /** For a request without repeated ids, the count of a batch is the number of its items in the request. */
  lemma {:induction false} BatchCountIsCardinality(qs: map<string, TemplateQuestion>, ids: seq<string>, b: string)
    requires AllFound(qs, ids) && Distinct(ids)
    ensures Get(BatchCountsOf(qs, ids), b) == |InBatch(qs, ids, b)|
    decreases |ids|
  {
    if |ids| > 0 {
      var pre := ids[..|ids| - 1];
      var x := ids[|ids| - 1];
      DistinctSplit(ids);
      BatchCountIsCardinality(qs, pre, b);
      if qs[x].batchId == b {
        assert InBatch(qs, ids, b) == InBatch(qs, pre, b) + {x};
      } else {
        assert InBatch(qs, ids, b) == InBatch(qs, pre, b);
      }
    }
  }

  /** The pools of the request's items. */
  function PoolsOf(qs: map<string, TemplateQuestion>, ids: seq<string>): set<string>
  {
    set x | x in ids && x in qs :: PoolOf(qs[x])
  }

  /** The ids of a request, as a set. */
  function IdSet(ids: seq<string>): set<string>
  {
    set x | x in ids
  }

  lemma {:induction false} DistinctIdSet(ids: seq<string>)
    requires Distinct(ids)
    ensures |IdSet(ids)| == |ids|
    decreases |ids|
  {
    if |ids| > 0 {
      var pre := ids[..|ids| - 1];
      var x := ids[|ids| - 1];
      DistinctSplit(ids);
      DistinctIdSet(pre);
      assert IdSet(ids) == IdSet(pre) + {x};
    }
  }

  /** The batch counts depend only on which batch each request item belongs to. */
  lemma {:induction false} BatchCountsSameBatches(qs: map<string, TemplateQuestion>, qs2: map<string, TemplateQuestion>, ids: seq<string>)
    requires AllFound(qs, ids) && AllFound(qs2, ids)
    requires forall k :: 0 <= k < |ids| ==> qs2[ids[k]].batchId == qs[ids[k]].batchId
    ensures BatchCountsOf(qs2, ids) == BatchCountsOf(qs, ids)
    decreases |ids|
  {
    if |ids| > 0 {
      BatchCountsSameBatches(qs, qs2, ids[..|ids| - 1]);
    }
  }

  /**
   * The counter shift a review applies to one batch for `c` of its items,
   * stamping the review time. Every shift moves items between two counters.
   */
  function Shift(b: TemplateBatch, c: nat, review: Review, now: Timestamp): (r: TemplateBatch)
    ensures r.approvedCount + r.pendingCount + r.rejectedCount == b.approvedCount + b.pendingCount + b.rejectedCount
    ensures r.totalQuestions == b.totalQuestions && r.status == b.status && r.lastReviewedAt == Some(now)
    ensures review.RejectReview? ==> r.approvedCount == b.approvedCount && r.rejectedCount == b.rejectedCount + c
    ensures !review.RejectReview? ==> r.rejectedCount == b.rejectedCount
    ensures review.ApproveReview? ==> r.pendingCount == b.pendingCount - c && r.approvedCount == b.approvedCount + c
    ensures review.UnapproveReview? ==> r.pendingCount == b.pendingCount + c && r.approvedCount == b.approvedCount - c
  {
    match review
    case ApproveReview =>
      b.(approvedCount := b.approvedCount + c, pendingCount := b.pendingCount - c, lastReviewedAt := Some(now))
    case RejectReview =>
      b.(rejectedCount := b.rejectedCount + c, pendingCount := b.pendingCount - c, lastReviewedAt := Some(now))
    case UnapproveReview =>
      b.(approvedCount := b.approvedCount - c, pendingCount := b.pendingCount + c, lastReviewedAt := Some(now))
  }

  /**
   * The batched counter updates of one request. An update of a batch record
   * that does not exist fails the whole commit, so then nothing is returned.
   */
  function AdjustBatches(batches: map<string, TemplateBatch>, counts: map<string, nat>, review: Review,
                         now: Timestamp): (r: Option<map<string, TemplateBatch>>)
    ensures r.Some? <==> counts.Keys <= batches.Keys
    ensures r.Some? ==> r.value.Keys == batches.Keys
    ensures r.Some? ==> forall b :: b in batches ==>
      r.value[b] == if b in counts then Shift(batches[b], counts[b], review, now) else batches[b]
  {
    if counts.Keys <= batches.Keys then
      Some(map b | b in batches :: if b in counts then Shift(batches[b], counts[b], review, now) else batches[b])
    else None
  }

  /** The status each review handler derives from a batch's counters after its commit. */
  function NextStatus(review: Review, b: TemplateBatch): BatchStatus
  {
    match review
    case ApproveReview =>
      if b.approvedCount == b.totalQuestions then AllApproved
      else if b.approvedCount == 0 then AllPending
      else PartiallyApproved
    case RejectReview =>
      if b.approvedCount == b.totalQuestions then AllApproved
      else if b.pendingCount == 0 && b.approvedCount == 0 then AllPending
      else PartiallyApproved
    case UnapproveReview =>
      if b.approvedCount == 0 then AllPending
      else if b.approvedCount == b.totalQuestions then AllApproved
      else PartiallyApproved
  }

  /**
   * How the three rules relate: none yields `failed`; approve and unapprove
   * disagree only on an empty batch; the reject rule calls a batch all
   * pending only when it has neither approved nor pending items left.
   */
  lemma StatusRulesCompared(b: TemplateBatch)
    ensures forall review :: NextStatus(review, b) != Failed
    ensures NextStatus(ApproveReview, b) != NextStatus(UnapproveReview, b) <==>
      b.approvedCount == 0 && b.totalQuestions == 0
    ensures NextStatus(RejectReview, b) == AllPending <==>
      b.approvedCount == 0 && b.pendingCount == 0 && b.totalQuestions != 0
    ensures NextStatus(RejectReview, b) != NextStatus(ApproveReview, b) <==>
      b.approvedCount == 0 && b.totalQuestions != 0 && b.pendingCount != 0
  {
  }

  /** The status pass: every touched batch gets the review's rule applied to its new counters. */
  function Restatus(batches: map<string, TemplateBatch>, touched: set<string>, review: Review): (r: map<string, TemplateBatch>)
    ensures r.Keys == batches.Keys
    ensures forall b :: b in batches ==> r[b] == if b in touched then batches[b].(status := NextStatus(review, batches[b])) else batches[b]
  {
    map b | b in batches :: if b in touched then batches[b].(status := NextStatus(review, batches[b])) else batches[b]
  }

  /** The batch records after a review's counter updates and status pass: only counters, stamp and status change. */
  lemma ReviewedBatches(batches: map<string, TemplateBatch>, counts: map<string, nat>, review: Review, now: Timestamp)
    requires counts.Keys <= batches.Keys
    ensures var r := Restatus(AdjustBatches(batches, counts, review, now).value, counts.Keys, review);
      && r.Keys == batches.Keys
      && forall b :: b in batches ==>
           && r[b].totalQuestions == batches[b].totalQuestions
           && (review.ApproveReview? ==>
                 r[b].approvedCount == batches[b].approvedCount + Get(counts, b)
                 && r[b].pendingCount == batches[b].pendingCount - Get(counts, b))
           && (review.RejectReview? ==>
                 r[b].approvedCount == batches[b].approvedCount
                 && r[b].pendingCount == batches[b].pendingCount - Get(counts, b)
                 && r[b].rejectedCount == batches[b].rejectedCount + Get(counts, b))
           && (review.UnapproveReview? ==>
                 r[b].approvedCount == batches[b].approvedCount - Get(counts, b)
                 && r[b].pendingCount == batches[b].pendingCount + Get(counts, b))
           && (!review.RejectReview? ==> r[b].rejectedCount == batches[b].rejectedCount)
           && r[b].status == (if b in counts then NextStatus(review, r[b]) else batches[b].status)
           && (b !in counts ==> r[b] == batches[b])
  {
    var adjusted := AdjustBatches(batches, counts, review, now).value;
    forall b | b in batches
      ensures Restatus(adjusted, counts.Keys, review)[b].totalQuestions == adjusted[b].totalQuestions
      ensures Restatus(adjusted, counts.Keys, review)[b].approvedCount == adjusted[b].approvedCount
      ensures Restatus(adjusted, counts.Keys, review)[b].pendingCount == adjusted[b].pendingCount
      ensures Restatus(adjusted, counts.Keys, review)[b].rejectedCount == adjusted[b].rejectedCount
      ensures b in counts ==> Restatus(adjusted, counts.Keys, review)[b].status
                                == NextStatus(review, Restatus(adjusted, counts.Keys, review)[b])
    {
    }
  }

  // ---------------------------------------------------------------------
  // The counter invariant.
  // ---------------------------------------------------------------------

  function ItemsOf(qs: map<string, TemplateQuestion>, b: string): set<string>
  {
    set id | id in qs && qs[id].batchId == b
  }

  function ItemsWith(qs: map<string, TemplateQuestion>, b: string, st: QuestionStatus): set<string>
  {
    set id | id in qs && qs[id].batchId == b && qs[id].status == st
  }

  function ApprovedInPool(qs: map<string, TemplateQuestion>, p: string): set<string>
  {
    set id | id in qs && qs[id].status == Approved && PoolOf(qs[id]) == p
  }

  /** The counters of batch `b` agree with the statuses of its items. */
  predicate BatchMatches(s: Store, b: string)
    requires b in s.batches
  {
    && s.batches[b].totalQuestions == |ItemsOf(s.questions, b)|
    && s.batches[b].approvedCount == |ItemsWith(s.questions, b, Approved)|
    && s.batches[b].pendingCount == |ItemsWith(s.questions, b, Pending)|
    && s.batches[b].rejectedCount == |ItemsWith(s.questions, b, Rejected)|
  }

  predicate BatchCountersMatch(s: Store)
  {
    forall b :: b in s.batches ==> BatchMatches(s, b)
  }

  /** A pool's total is the number of approved items of its key. */
  predicate PoolTotalsMatch(s: Store)
  {
    forall p :: p in s.pools ==> s.pools[p].totalQuestions == |ApprovedInPool(s.questions, p)|
  }

  /** Every item's batch exists, and every approved item's pool exists. */
  predicate ParentsExist(s: Store)
  {
    && (forall id :: id in s.questions ==> s.questions[id].batchId in s.batches)
    && (forall id :: id in s.questions && s.questions[id].status == Approved ==> PoolOf(s.questions[id]) in s.pools)
  }

  /** The store's aggregates agree with its items and every reference resolves. */
  predicate CountersMatch(s: Store)
  {
    BatchCountersMatch(s) && PoolTotalsMatch(s) && ParentsExist(s)
  }

  /** Two item tables that agree on every item's batch, status and pool. */
  predicate SameStatuses(qs: map<string, TemplateQuestion>, qs2: map<string, TemplateQuestion>)
  {
    && qs2.Keys == qs.Keys
    && (forall x :: x in qs ==> qs2[x].batchId == qs[x].batchId && qs2[x].status == qs[x].status && PoolOf(qs2[x]) == PoolOf(qs[x]))
  }

  /** The invariant reads only each item's batch, status and pool. */
  lemma CountersSeeOnlyStatuses(s: Store, qs2: map<string, TemplateQuestion>)
    requires CountersMatch(s) && SameStatuses(s.questions, qs2)
    ensures CountersMatch(s.(questions := qs2))
  {
    var s2 := s.(questions := qs2);
    forall b | b in s.batches
      ensures BatchMatches(s2, b)
    {
      assert BatchMatches(s, b);
      SameStatusesBatchSets(s.questions, qs2, b);
    }
    forall p | p in s.pools
      ensures s2.pools[p].totalQuestions == |ApprovedInPool(qs2, p)|
    {
      SameStatusesPoolSet(s.questions, qs2, p);
    }
  }

  lemma SameStatusesBatchSets(qs: map<string, TemplateQuestion>, qs2: map<string, TemplateQuestion>, b: string)
    requires SameStatuses(qs, qs2)
    ensures ItemsOf(qs2, b) == ItemsOf(qs, b)
    ensures forall st :: ItemsWith(qs2, b, st) == ItemsWith(qs, b, st)
  {
  }

  lemma SameStatusesPoolSet(qs: map<string, TemplateQuestion>, qs2: map<string, TemplateQuestion>, p: string)
    requires SameStatuses(qs, qs2)
    ensures ApprovedInPool(qs2, p) == ApprovedInPool(qs, p)
  {
  }

  /** An item table rewrite that keeps every item's batch and approves nothing new. */
  predicate NoNewApprovals(qs: map<string, TemplateQuestion>, qs2: map<string, TemplateQuestion>)
  {
    && qs2.Keys == qs.Keys
    && forall x :: x in qs ==> qs2[x].batchId == qs[x].batchId && (qs2[x].status == Approved ==> qs2[x] == qs[x])
  }

  /** Such a rewrite, with no batch or pool record removed, keeps every reference resolving. */
  lemma ParentsKeptWithoutApprovals(s: Store, s2: Store)
    requires ParentsExist(s) && NoNewApprovals(s.questions, s2.questions)
    requires s.batches.Keys <= s2.batches.Keys && s.pools.Keys <= s2.pools.Keys
    ensures ParentsExist(s2)
  {
  }

  /** |A + B| for disjoint A and B, and |A - B| for B inside A. */
  lemma CardinalityOfDisjointUnion(a: set<string>, b: set<string>)
    requires a * b == {}
    ensures |a + b| == |a| + |b|
  {
  }

  lemma CardinalityOfDifference(a: set<string>, b: set<string>)
    requires b <= a
    ensures |a - b| == |a| - |b|
  {
    assert a == (a - b) + b;
    CardinalityOfDisjointUnion(a - b, b);
  }
}
