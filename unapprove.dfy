/**
 * The unapprove handler: of the requested ids only those of approved items
 * are processed; they go back to pending with their approval stamps
 * removed, each batch's approved counter falls and its pending counter rises
 * by its share, and each touched pool shrinks by the number processed.
 */
module UnapproveQuestions {

  import opened Wrappers
  import opened Constants
  import opened TemplateTypes
  import opened TemplateStore
  import ApproveQuestions

  /** The requested ids whose item exists and is approved, in request order, repeats kept. */
  function ApprovedFilter(qs: map<string, TemplateQuestion>, ids: seq<string>): (r: seq<string>)
    ensures AllFound(qs, r)
    ensures forall k :: 0 <= k < |r| ==> qs[r[k]].status == Approved
    ensures forall x :: x in r <==> x in ids && x in qs && qs[x].status == Approved
    ensures |r| <= |ids|
    decreases |ids|
  {
    if |ids| == 0 then []
    else
      var rest := ApprovedFilter(qs, ids[1..]);
      assert forall x :: x in ids <==> x == ids[0] || x in ids[1..];
      if ids[0] in qs && qs[ids[0]].status == Approved then [ids[0]] + rest else rest
  }

  /** Filtering a request without repeats gives a list without repeats. */
  lemma {:induction false} ApprovedFilterDistinct(qs: map<string, TemplateQuestion>, ids: seq<string>)
    requires Distinct(ids)
    ensures Distinct(ApprovedFilter(qs, ids))
    decreases |ids|
  {
    if |ids| > 0 {
      assert Distinct(ids[1..]);
      ApprovedFilterDistinct(qs, ids[1..]);
      assert ids[0] !in ids[1..];
    }
  }

  /** When every requested item is approved, nothing is filtered out. */
  lemma {:induction false} ApprovedFilterKeepsAll(qs: map<string, TemplateQuestion>, ids: seq<string>)
    requires AllFound(qs, ids)
    requires forall k :: 0 <= k < |ids| ==> qs[ids[k]].status == Approved
    ensures ApprovedFilter(qs, ids) == ids
    decreases |ids|
  {
    if |ids| > 0 {
      ApprovedFilterKeepsAll(qs, ids[1..]);
    }
  }

  /** The fields written on one unapproved item: back to pending, approval stamps removed. */
  function UnapproveItem(q: TemplateQuestion): TemplateQuestion
  {
    q.(status := Pending, approvedAt := None, approvedBy := None)
  }

  function UnapproveItems(qs: map<string, TemplateQuestion>, ids: seq<string>): map<string, TemplateQuestion>
  {
    map x | x in qs :: if x in ids then UnapproveItem(qs[x]) else qs[x]
  }

  /** Each touched pool's total falls by the number of items processed, not by its own share. */
  function DecrementPools(pools: map<string, Pool>, touched: set<string>, n: nat, now: Timestamp): map<string, Pool>
  {
    map p | p in pools :: if p in touched then pools[p].(totalQuestions := pools[p].totalQuestions - n, lastUpdated := now) else pools[p]
  }

  /** The handler as one transition; a missing pool or batch fails the one commit. */
  function Unapprove(s: Store, questionIds: Option<seq<string>>, now: Timestamp, commitOk: bool): (o: Outcome<nat>)
    ensures o.result.Err? ==> o.store == s
    ensures questionIds.None? || questionIds.value == [] ==> o.result == Err(MissingQuestionIds)
    ensures questionIds.Some? && questionIds.value != [] ==>
      (o.result == Err(NoApprovedQuestions) <==> ApprovedFilter(s.questions, questionIds.value) == [])
    ensures o.result.Ok? ==> questionIds.Some? && o.result.value == |ApprovedFilter(s.questions, questionIds.value)| > 0
  {
    if questionIds.None? || |questionIds.value| == 0 then Outcome(Err(MissingQuestionIds), s)
    else
      var approved := ApprovedFilter(s.questions, questionIds.value);
      if |approved| == 0 then Outcome(Err(NoApprovedQuestions), s)
      else
        var counts := BatchCountsOf(s.questions, approved);
        var touched := PoolsOf(s.questions, approved);
        if !(touched <= s.pools.Keys) then Outcome(Err(PoolNotFound), s)
        else
          match AdjustBatches(s.batches, counts, UnapproveReview, now)
          case None => Outcome(Err(BatchNotFound), s)
          case Some(adjusted) =>
            if !commitOk then Outcome(Err(CommitFailed), s)
            else Outcome(Ok(|approved|), Store(
              UnapproveItems(s.questions, approved),
              Restatus(adjusted, counts.Keys, UnapproveReview),
              DecrementPools(s.pools, touched, |approved|, now)))
  }

  /** When the handler succeeds, and the store it then writes. */
  lemma UnapproveOkShape(s: Store, ids: seq<string>, now: Timestamp, commitOk: bool)
    ensures var approved := ApprovedFilter(s.questions, ids);
      Unapprove(s, Some(ids), now, commitOk).result.Ok? <==>
        |approved| > 0 && PoolsOf(s.questions, approved) <= s.pools.Keys
        && BatchCountsOf(s.questions, approved).Keys <= s.batches.Keys && commitOk
    ensures Unapprove(s, Some(ids), now, commitOk).result.Ok? ==>
      var s2 := Unapprove(s, Some(ids), now, commitOk).store;
      var approved := ApprovedFilter(s.questions, ids);
      var counts := BatchCountsOf(s.questions, approved);
      && s2.questions == UnapproveItems(s.questions, approved)
      && s2.pools == DecrementPools(s.pools, PoolsOf(s.questions, approved), |approved|, now)
      && s2.batches.Keys == s.batches.Keys
      && (forall b :: b in s.batches ==>
            && s2.batches[b].totalQuestions == s.batches[b].totalQuestions
            && s2.batches[b].approvedCount == s.batches[b].approvedCount - Get(counts, b)
            && s2.batches[b].pendingCount == s.batches[b].pendingCount + Get(counts, b)
            && s2.batches[b].rejectedCount == s.batches[b].rejectedCount
            && s2.batches[b].status
                 == (if b in counts then NextStatus(UnapproveReview, s2.batches[b]) else s.batches[b].status))
  {
    var approved := ApprovedFilter(s.questions, ids);
    var counts := BatchCountsOf(s.questions, approved);
    if |approved| > 0 && PoolsOf(s.questions, approved) <= s.pools.Keys && counts.Keys <= s.batches.Keys {
      ReviewedBatches(s.batches, counts, UnapproveReview, now);
    }
  }

  /** Requested ids that are missing or not approved are left untouched; the approved ones become pending. */
  lemma UnapprovedItems(s: Store, ids: seq<string>, now: Timestamp, commitOk: bool)
    requires Unapprove(s, Some(ids), now, commitOk).result.Ok?
    ensures var s2 := Unapprove(s, Some(ids), now, commitOk).store;
      && s2.questions.Keys == s.questions.Keys
      && (forall x :: x in s.questions && s.questions[x].status == Approved && x in ids ==>
            s2.questions[x].status == Pending && s2.questions[x].approvedAt == None && s2.questions[x].approvedBy == None)
      && (forall x :: x in s.questions && (x !in ids || s.questions[x].status != Approved) ==> s2.questions[x] == s.questions[x])
  {
    UnapproveOkShape(s, ids, now, commitOk);
  }

  lemma UnapproveItemSets(qs: map<string, TemplateQuestion>, approved: seq<string>, b: string)
    requires AllFound(qs, approved)
    requires forall k :: 0 <= k < |approved| ==> qs[approved[k]].status == Approved
    ensures var qs2 := UnapproveItems(qs, approved);
      && ItemsOf(qs2, b) == ItemsOf(qs, b)
      && InBatch(qs, approved, b) <= ItemsWith(qs, b, Approved)
      && ItemsWith(qs2, b, Pending) == ItemsWith(qs, b, Pending) + InBatch(qs, approved, b)
      && ItemsWith(qs, b, Pending) * InBatch(qs, approved, b) == {}
      && ItemsWith(qs2, b, Approved) == ItemsWith(qs, b, Approved) - InBatch(qs, approved, b)
      && ItemsWith(qs2, b, Rejected) == ItemsWith(qs, b, Rejected)
  {
    var qs2 := UnapproveItems(qs, approved);
    forall x | x in approved ensures x in qs && qs[x].status == Approved {
      var k :| 0 <= k < |approved| && approved[k] == x;
    }
    assert ItemsWith(qs2, b, Pending) == ItemsWith(qs, b, Pending) + InBatch(qs, approved, b);
    assert ItemsWith(qs2, b, Approved) == ItemsWith(qs, b, Approved) - InBatch(qs, approved, b);
    assert ItemsWith(qs2, b, Rejected) == ItemsWith(qs, b, Rejected);
  }

  lemma UnapproveBatchStaysMatched(qs: map<string, TemplateQuestion>, approved: seq<string>, b: string,
                                   ob: TemplateBatch, nb: TemplateBatch)
    requires AllFound(qs, approved) && Distinct(approved)
    requires forall k :: 0 <= k < |approved| ==> qs[approved[k]].status == Approved
    requires ob.totalQuestions == |ItemsOf(qs, b)| && ob.approvedCount == |ItemsWith(qs, b, Approved)|
    requires ob.pendingCount == |ItemsWith(qs, b, Pending)| && ob.rejectedCount == |ItemsWith(qs, b, Rejected)|
    requires nb.totalQuestions == ob.totalQuestions && nb.rejectedCount == ob.rejectedCount
    requires nb.approvedCount == ob.approvedCount - Get(BatchCountsOf(qs, approved), b)
    requires nb.pendingCount == ob.pendingCount + Get(BatchCountsOf(qs, approved), b)
    ensures var qs2 := UnapproveItems(qs, approved);
      && nb.totalQuestions == |ItemsOf(qs2, b)| && nb.approvedCount == |ItemsWith(qs2, b, Approved)|
      && nb.pendingCount == |ItemsWith(qs2, b, Pending)| && nb.rejectedCount == |ItemsWith(qs2, b, Rejected)|
  {
    UnapproveItemSets(qs, approved, b);
    BatchCountIsCardinality(qs, approved, b);
    CardinalityOfDisjointUnion(ItemsWith(qs, b, Pending), InBatch(qs, approved, b));
    CardinalityOfDifference(ItemsWith(qs, b, Approved), InBatch(qs, approved, b));
  }

  lemma UnapprovePoolSets(qs: map<string, TemplateQuestion>, approved: seq<string>, p: string)
    requires AllFound(qs, approved)
    requires forall k :: 0 <= k < |approved| ==> qs[approved[k]].status == Approved
    ensures var mine := set x | x in approved && x in qs && PoolOf(qs[x]) == p;
      && ApprovedInPool(UnapproveItems(qs, approved), p) == ApprovedInPool(qs, p) - mine
      && mine <= ApprovedInPool(qs, p)
  {
    forall x | x in approved ensures x in qs && qs[x].status == Approved {
      var k :| 0 <= k < |approved| && approved[k] == x;
    }
  }

  /** The approved items of the request, all in pool `p0`, leave `p0`'s approved set and no other. */
  lemma UnapprovePoolStaysMatched(qs: map<string, TemplateQuestion>, pools: map<string, Pool>, approved: seq<string>,
                                  now: Timestamp, p: string)
    requires |approved| > 0 && Distinct(approved) && AllFound(qs, approved)
    requires forall k :: 0 <= k < |approved| ==> qs[approved[k]].status == Approved
    requires forall k :: 0 <= k < |approved| ==> PoolOf(qs[approved[k]]) == PoolOf(qs[approved[0]])
    requires p in pools ==> pools[p].totalQuestions == |ApprovedInPool(qs, p)|
    ensures var pools2 := DecrementPools(pools, PoolsOf(qs, approved), |approved|, now);
      p in pools2 ==> pools2[p].totalQuestions == |ApprovedInPool(UnapproveItems(qs, approved), p)|
  {
    var p0 := PoolOf(qs[approved[0]]);
    forall x | x in approved ensures x in qs && PoolOf(qs[x]) == p0 && qs[x].status == Approved {
      var k :| 0 <= k < |approved| && approved[k] == x;
    }
    assert PoolsOf(qs, approved) == {p0};
    var mine := set x | x in approved && x in qs && PoolOf(qs[x]) == p;
    UnapprovePoolSets(qs, approved, p);
    CardinalityOfDifference(ApprovedInPool(qs, p), mine);
    if p == p0 {
      assert mine == IdSet(approved);
      DistinctIdSet(approved);
    } else {
      assert mine == {};
    }
  }

  /** The request has no repeats and its approved items share one pool. */
  predicate WellFormedUnapproval(s: Store, ids: seq<string>)
  {
    && Distinct(ids)
    && (forall j, k :: 0 <= j < |ids| && 0 <= k < |ids| && ids[j] in s.questions && ids[k] in s.questions
          && s.questions[ids[j]].status == Approved && s.questions[ids[k]].status == Approved
          ==> PoolOf(s.questions[ids[j]]) == PoolOf(s.questions[ids[k]]))
  }

  /** The filtered list of a well-formed request has no repeats and lies in one pool. */
  lemma WellFormedApprovedList(s: Store, ids: seq<string>)
    requires WellFormedUnapproval(s, ids)
    ensures var approved := ApprovedFilter(s.questions, ids);
      && Distinct(approved)
      && (|approved| > 0 ==> forall k :: 0 <= k < |approved| ==> PoolOf(s.questions[approved[k]]) == PoolOf(s.questions[approved[0]]))
  {
    var approved := ApprovedFilter(s.questions, ids);
    ApprovedFilterDistinct(s.questions, ids);
    if |approved| > 0 {
      forall k | 0 <= k < |approved|
        ensures PoolOf(s.questions[approved[k]]) == PoolOf(s.questions[approved[0]])
      {
        assert approved[k] in ids && approved[0] in ids;
        var j :| 0 <= j < |ids| && ids[j] == approved[k];
        var i :| 0 <= i < |ids| && ids[i] == approved[0];
      }
    }
  }

  lemma UnapproveKeepsBatchCounters(s: Store, ids: seq<string>, now: Timestamp, commitOk: bool)
    requires BatchCountersMatch(s) && WellFormedUnapproval(s, ids)
    ensures BatchCountersMatch(Unapprove(s, Some(ids), now, commitOk).store)
  {
    var s2 := Unapprove(s, Some(ids), now, commitOk).store;
    UnapproveOkShape(s, ids, now, commitOk);
    WellFormedApprovedList(s, ids);
    if Unapprove(s, Some(ids), now, commitOk).result.Ok? {
      var approved := ApprovedFilter(s.questions, ids);
      forall b | b in s2.batches
        ensures BatchMatches(s2, b)
      {
        assert BatchMatches(s, b);
        UnapproveBatchStaysMatched(s.questions, approved, b, s.batches[b], s2.batches[b]);
      }
    }
  }

  lemma UnapproveKeepsPoolTotals(s: Store, ids: seq<string>, now: Timestamp, commitOk: bool)
    requires PoolTotalsMatch(s) && WellFormedUnapproval(s, ids)
    ensures PoolTotalsMatch(Unapprove(s, Some(ids), now, commitOk).store)
  {
    var s2 := Unapprove(s, Some(ids), now, commitOk).store;
    UnapproveOkShape(s, ids, now, commitOk);
    WellFormedApprovedList(s, ids);
    if Unapprove(s, Some(ids), now, commitOk).result.Ok? {
      var approved := ApprovedFilter(s.questions, ids);
      forall p | p in s2.pools
        ensures s2.pools[p].totalQuestions == |ApprovedInPool(s2.questions, p)|
      {
        UnapprovePoolStaysMatched(s.questions, s.pools, approved, now, p);
      }
    }
  }

  lemma UnapproveKeepsParents(s: Store, ids: seq<string>, now: Timestamp, commitOk: bool)
    requires ParentsExist(s)
    ensures ParentsExist(Unapprove(s, Some(ids), now, commitOk).store)
  {
    UnapproveOkShape(s, ids, now, commitOk);
    var s2 := Unapprove(s, Some(ids), now, commitOk).store;
    if Unapprove(s, Some(ids), now, commitOk).result.Ok? {
      var approved := ApprovedFilter(s.questions, ids);
      UnapproveApprovesNothing(s.questions, approved);
      DecrementPoolsKeys(s.pools, PoolsOf(s.questions, approved), |approved|, now);
      ParentsKeptWithoutApprovals(s, s2);
    }
  }

  lemma UnapproveApprovesNothing(qs: map<string, TemplateQuestion>, ids: seq<string>)
    ensures NoNewApprovals(qs, UnapproveItems(qs, ids))
  {
  }

  lemma DecrementPoolsKeys(pools: map<string, Pool>, touched: set<string>, n: nat, now: Timestamp)
    ensures DecrementPools(pools, touched, n, now).Keys == pools.Keys
  {
  }

  /**
   * Unapproving a request without repeats whose approved items share one
   * pool keeps every counter in step with the statuses.
   */
  lemma UnapproveKeepsCountersMatch(s: Store, ids: seq<string>, now: Timestamp, commitOk: bool)
    requires CountersMatch(s) && WellFormedUnapproval(s, ids)
    ensures CountersMatch(Unapprove(s, Some(ids), now, commitOk).store)
  {
    UnapproveKeepsBatchCounters(s, ids, now, commitOk);
    UnapproveKeepsPoolTotals(s, ids, now, commitOk);
    UnapproveKeepsParents(s, ids, now, commitOk);
  }

  /** Approving never-approved pending items and unapproving them again gives back the same items. */
  lemma ApproveThenUnapproveItems(qs: map<string, TemplateQuestion>, ids: seq<string>, adminId: Option<string>, now: Timestamp)
    requires AllFound(qs, ids)
    requires forall k :: 0 <= k < |ids| ==> qs[ids[k]].status == Pending
    requires forall k :: 0 <= k < |ids| ==> qs[ids[k]].approvedAt == None && qs[ids[k]].approvedBy == None
    ensures var qs2 := ApproveQuestions.ApproveItems(qs, ids, now, adminId);
      && AllFound(qs2, ids)
      && ApprovedFilter(qs2, ids) == ids
      && BatchCountsOf(qs2, ids) == BatchCountsOf(qs, ids)
      && PoolsOf(qs2, ids) == PoolsOf(qs, ids)
      && UnapproveItems(qs2, ids) == qs
  {
    var qs2 := ApproveQuestions.ApproveItems(qs, ids, now, adminId);
    forall x | x in ids ensures x in qs && qs[x].status == Pending && qs[x].approvedAt == None && qs[x].approvedBy == None {
      var k :| 0 <= k < |ids| && ids[k] == x;
    }
    ApprovedFilterKeepsAll(qs2, ids);
    BatchCountsSameBatches(qs, qs2, ids);
    assert PoolsOf(qs2, ids) == PoolsOf(qs, ids);
    assert UnapproveItems(qs2, ids) == qs;
  }

  predicate RoundTripReady(s: Store, ids: seq<string>)
  {
    && ApproveQuestions.WellFormedApproval(s, ids)
    && BatchCountsOf(s.questions, ids).Keys <= s.batches.Keys
    && (forall k :: 0 <= k < |ids| ==> s.questions[ids[k]].approvedAt == None && s.questions[ids[k]].approvedBy == None)
  }

  lemma RoundTripItems(s: Store, s2: Store, ids: seq<string>, adminId: Option<string>, now: Timestamp, later: Timestamp)
    requires RoundTripReady(s, ids)
    requires s2 == ApproveQuestions.Approve(s, Some(ids), adminId, now, true).store
    ensures ApproveQuestions.Approve(s, Some(ids), adminId, now, true).result == Ok(|ids|)
    ensures Unapprove(s2, Some(ids), later, true).result == Ok(|ids|)
    ensures Unapprove(s2, Some(ids), later, true).store.questions == s.questions
    ensures ApprovedFilter(s2.questions, ids) == ids && PoolsOf(s2.questions, ids) == PoolsOf(s.questions, ids)
    ensures BatchCountsOf(s2.questions, ids) == BatchCountsOf(s.questions, ids)
  {
    ApproveQuestions.ApproveOkShape(s, ids, adminId, now, true);
    ApproveThenUnapproveItems(s.questions, ids, adminId, now);
    ApproveQuestions.PoolGroupsShape(s.questions, ids);
    assert PoolsOf(s.questions, ids) <= s2.pools.Keys;
    UnapproveOkShape(s2, ids, later, true);
  }

  lemma RoundTripBatches(s: Store, s2: Store, ids: seq<string>, adminId: Option<string>, now: Timestamp, later: Timestamp)
    requires RoundTripReady(s, ids)
    requires s2 == ApproveQuestions.Approve(s, Some(ids), adminId, now, true).store
    ensures var s3 := Unapprove(s2, Some(ids), later, true).store;
      && s3.batches.Keys == s.batches.Keys
      && (forall b :: b in s.batches ==>
            && s3.batches[b].totalQuestions == s.batches[b].totalQuestions
            && s3.batches[b].approvedCount == s.batches[b].approvedCount
            && s3.batches[b].pendingCount == s.batches[b].pendingCount
            && s3.batches[b].rejectedCount == s.batches[b].rejectedCount)
  {
    RoundTripItems(s, s2, ids, adminId, now, later);
    ApproveQuestions.ApproveOkShape(s, ids, adminId, now, true);
    UnapproveOkShape(s2, ids, later, true);
    var s3 := Unapprove(s2, Some(ids), later, true).store;
    var counts := BatchCountsOf(s.questions, ids);
    assert BatchCountsOf(s2.questions, ApprovedFilter(s2.questions, ids)) == counts;
    CountersRoundTrip(s.batches, s2.batches, s3.batches, counts);
  }

  /** Adding `counts` to the approved counters and taking them off again restores every batch's counters. */
  lemma CountersRoundTrip(b1: map<string, TemplateBatch>, b2: map<string, TemplateBatch>, b3: map<string, TemplateBatch>,
                          counts: map<string, nat>)
    requires b2.Keys == b1.Keys && b3.Keys == b2.Keys
    requires forall b :: b in b1 ==>
      && b2[b].totalQuestions == b1[b].totalQuestions
      && b2[b].approvedCount == b1[b].approvedCount + Get(counts, b)
      && b2[b].pendingCount == b1[b].pendingCount - Get(counts, b)
      && b2[b].rejectedCount == b1[b].rejectedCount
    requires forall b :: b in b2 ==>
      && b3[b].totalQuestions == b2[b].totalQuestions
      && b3[b].approvedCount == b2[b].approvedCount - Get(counts, b)
      && b3[b].pendingCount == b2[b].pendingCount + Get(counts, b)
      && b3[b].rejectedCount == b2[b].rejectedCount
    ensures forall b :: b in b1 ==>
      && b3[b].totalQuestions == b1[b].totalQuestions
      && b3[b].approvedCount == b1[b].approvedCount
      && b3[b].pendingCount == b1[b].pendingCount
      && b3[b].rejectedCount == b1[b].rejectedCount
  {
  }

  lemma RoundTripPools(s: Store, s2: Store, ids: seq<string>, adminId: Option<string>, now: Timestamp, later: Timestamp)
    requires RoundTripReady(s, ids)
    requires s2 == ApproveQuestions.Approve(s, Some(ids), adminId, now, true).store
    ensures var s3 := Unapprove(s2, Some(ids), later, true).store;
      && (forall p :: p in s.pools ==> p in s3.pools && s3.pools[p].totalQuestions == s.pools[p].totalQuestions)
      && (forall p :: p in s3.pools && p !in s.pools ==> s3.pools[p].totalQuestions == 0)
  {
    RoundTripItems(s, s2, ids, adminId, now, later);
    UnapproveOkShape(s2, ids, later, true);
    var touched := PoolsOf(s.questions, ids);
    forall p | p in s.pools.Keys + s2.pools.Keys
      ensures p in s.pools ==> p in s2.pools
      ensures p in s2.pools && p in s.pools ==>
        s2.pools[p].totalQuestions == s.pools[p].totalQuestions + (if p in touched then |ids| else 0)
      ensures p in s2.pools && p !in s.pools ==> p in touched && s2.pools[p].totalQuestions == |ids|
    {
      ApproveQuestions.ApprovePoolTotals(s, ids, adminId, now, true, p);
    }
    PoolsRoundTrip(s.pools, s2.pools, touched, |ids|, later);
  }

  /** Raising the touched pools' totals by `n` and decrementing them by `n` again restores every total. */
  lemma PoolsRoundTrip(p1: map<string, Pool>, p2: map<string, Pool>, touched: set<string>, n: nat, later: Timestamp)
    requires p1.Keys <= p2.Keys
    requires forall p :: p in p1 ==> p2[p].totalQuestions == p1[p].totalQuestions + (if p in touched then n else 0)
    requires forall p :: p in p2 && p !in p1 ==> p in touched && p2[p].totalQuestions == n
    ensures var p3 := DecrementPools(p2, touched, n, later);
      && (forall p :: p in p1 ==> p in p3 && p3[p].totalQuestions == p1[p].totalQuestions)
      && (forall p :: p in p3 && p !in p1 ==> p3[p].totalQuestions == 0)
  {
  }

  /**
   * Unapproving what was just approved restores the items, every batch's
   * counters and every existing pool's total; a pool the approval created
   * is left behind with a total of zero.
   */
  lemma ApproveThenUnapprove(s: Store, ids: seq<string>, adminId: Option<string>, now: Timestamp, later: Timestamp)
    requires RoundTripReady(s, ids)
    ensures ApproveQuestions.Approve(s, Some(ids), adminId, now, true).result == Ok(|ids|)
    ensures var s2 := ApproveQuestions.Approve(s, Some(ids), adminId, now, true).store;
      var o := Unapprove(s2, Some(ids), later, true);
      && o.result == Ok(|ids|)
      && o.store.questions == s.questions
      && o.store.batches.Keys == s.batches.Keys
      && (forall b :: b in s.batches ==>
            && o.store.batches[b].totalQuestions == s.batches[b].totalQuestions
            && o.store.batches[b].approvedCount == s.batches[b].approvedCount
            && o.store.batches[b].pendingCount == s.batches[b].pendingCount
            && o.store.batches[b].rejectedCount == s.batches[b].rejectedCount)
      && (forall p :: p in s.pools ==> p in o.store.pools && o.store.pools[p].totalQuestions == s.pools[p].totalQuestions)
      && (forall p :: p in o.store.pools && p !in s.pools ==> o.store.pools[p].totalQuestions == 0)
  {
    var s2 := ApproveQuestions.Approve(s, Some(ids), adminId, now, true).store;
    RoundTripItems(s, s2, ids, adminId, now, later);
    RoundTripBatches(s, s2, ids, adminId, now, later);
    RoundTripPools(s, s2, ids, adminId, now, later);
  }
}
