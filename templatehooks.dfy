/**
 * The moderation dashboard's data hooks: the Firestore query constraints
 * each listing hook builds from its optional filters, what such a list
 * admits, and the summary the stats hook derives from its three snapshots.
 */
module TemplateHooks {

  import opened Wrappers
  import opened Constants
  import opened TemplateTypes
  import opened TemplateStore

  /** The document fields the hooks filter or sort on. */
  datatype Field = BatchIdField | StatusField | InterestField | LevelField | GameModeField | CreatedAtField

  /** A query constraint: an equality filter on a field, or a descending sort. */
  datatype Constraint = Where(field: Field, value: string) | OrderByDesc(field: Field)

  // ---------------------------------------------------------------------
  // Constraint lists.
  // ---------------------------------------------------------------------

  /** A filter argument counts only when present and non-empty, as a JavaScript truthiness test. */
  predicate Given(arg: Option<string>)
  {
    arg.Some? && arg.value != ""
  }

  /** The constraint one `if (arg) constraints.push(where(field, '==', arg))` contributes. */
  function Push(field: Field, arg: Option<string>): seq<Constraint>
  {
    if Given(arg) then [Where(field, arg.value)] else []
  }

  /** One equality filter per given argument, in the order of the fields. */
  function Filters(fields: seq<Field>, args: seq<Option<string>>): seq<Constraint>
    requires |fields| == |args|
    decreases |fields|
  {
    if |fields| == 0 then []
    else
      var n := |fields| - 1;
      Filters(fields[..n], args[..n]) + Push(fields[n], args[n])
  }

  /** The number of given arguments. */
  function GivenCount(args: seq<Option<string>>): (r: nat)
    ensures r <= |args|
    decreases |args|
  {
    if |args| == 0 then 0 else GivenCount(args[..|args| - 1]) + (if Given(args[|args| - 1]) then 1 else 0)
  }

  /** The step a method takes: one more field's `if`. */
  lemma FiltersStep(fields: seq<Field>, args: seq<Option<string>>, k: nat)
    requires |fields| == |args| && k < |fields|
    ensures Filters(fields[..k + 1], args[..k + 1]) == Filters(fields[..k], args[..k]) + Push(fields[k], args[k])
  {
    assert fields[..k + 1][..k] == fields[..k] && args[..k + 1][..k] == args[..k];
  }

  /** A document, seen through its field lookup, satisfies every equality filter of the list. */
  ghost predicate Admits(get: Field -> Option<string>, cs: seq<Constraint>)
  {
    forall k :: 0 <= k < |cs| && cs[k].Where? ==> get(cs[k].field) == Some(cs[k].value)
  }

  lemma AdmitsConcat(get: Field -> Option<string>, a: seq<Constraint>, b: seq<Constraint>)
    ensures Admits(get, a + b) <==> Admits(get, a) && Admits(get, b)
  {
    assert forall k :: 0 <= k < |a| ==> (a + b)[k] == a[k];
    assert forall k :: 0 <= k < |b| ==> (a + b)[|a| + k] == b[k];
    if Admits(get, a) && Admits(get, b) {
      forall k | 0 <= k < |a + b| && (a + b)[k].Where?
        ensures get((a + b)[k].field) == Some((a + b)[k].value)
      {
        if k >= |a| {
          assert (a + b)[k] == b[k - |a|];
        }
      }
    }
  }

  /** The filters admit exactly the documents that agree with every given argument. */
  lemma {:induction false} FiltersMeaning(get: Field -> Option<string>, fields: seq<Field>, args: seq<Option<string>>)
    requires |fields| == |args|
    ensures Admits(get, Filters(fields, args)) <==> Agrees(get, fields, args)
    decreases |fields|
  {
    if |fields| > 0 {
      var n := |fields| - 1;
      var pre, preArgs := fields[..n], args[..n];
      FiltersMeaning(get, pre, preArgs);
      AdmitsConcat(get, Filters(pre, preArgs), Push(fields[n], args[n]));
      AgreesSnoc(get, fields, args);
    }
  }

  /** The document's field lookup agrees with every given argument. */
  ghost predicate Agrees(get: Field -> Option<string>, fields: seq<Field>, args: seq<Option<string>>)
    requires |fields| == |args|
  {
    forall i :: 0 <= i < |fields| && Given(args[i]) ==> get(fields[i]) == Some(args[i].value)
  }

  lemma AgreesSnoc(get: Field -> Option<string>, fields: seq<Field>, args: seq<Option<string>>)
    requires |fields| == |args| > 0
    ensures var n := |fields| - 1;
      Agrees(get, fields, args) <==> Agrees(get, fields[..n], args[..n]) && Admits(get, Push(fields[n], args[n]))
  {
    var n := |fields| - 1;
    assert forall i :: 0 <= i < n ==> fields[..n][i] == fields[i] && args[..n][i] == args[i];
    if Agrees(get, fields[..n], args[..n]) && Admits(get, Push(fields[n], args[n])) {
      forall i | 0 <= i < |fields| && Given(args[i])
        ensures get(fields[i]) == Some(args[i].value)
      {
        if i == n {
          assert Push(fields[n], args[n])[0] == Where(fields[n], args[n].value);
        } else {
          assert fields[..n][i] == fields[i] && args[..n][i] == args[i];
        }
      }
    }
    if Agrees(get, fields, args) && Given(args[n]) {
      assert Push(fields[n], args[n]) == [Where(fields[n], args[n].value)];
    }
  }

  /**
   * The filters keep the fields' order: the filter of a given argument sits
   * at the position that counts the given arguments before it, so there is
   * one filter per given argument and earlier fields come first.
   */
  lemma {:induction false} FiltersInOrder(fields: seq<Field>, args: seq<Option<string>>, i: nat)
    requires |fields| == |args| && i < |args| && Given(args[i])
    ensures GivenCount(args[..i]) < |Filters(fields, args)|
    ensures Filters(fields, args)[GivenCount(args[..i])] == Where(fields[i], args[i].value)
    decreases |fields|
  {
    var n := |fields| - 1;
    var pre, preArgs := fields[..n], args[..n];
    FiltersLength(pre, preArgs);
    if i == n {
      assert args[..i] == preArgs;
    } else {
      FiltersInOrder(pre, preArgs, i);
      assert preArgs[..i] == args[..i];
    }
  }

  /** Every constraint the filters produce is an equality filter. */
  lemma {:induction false} FiltersAreWheres(fields: seq<Field>, args: seq<Option<string>>)
    requires |fields| == |args|
    ensures forall k :: 0 <= k < |Filters(fields, args)| ==> Filters(fields, args)[k].Where?
    decreases |fields|
  {
    if |fields| > 0 {
      var n := |fields| - 1;
      FiltersAreWheres(fields[..n], args[..n]);
      var pre := Filters(fields[..n], args[..n]);
      assert forall k :: 0 <= k < |pre| ==> Filters(fields, args)[k] == pre[k];
    }
  }

  lemma {:induction false} FiltersLength(fields: seq<Field>, args: seq<Option<string>>)
    requires |fields| == |args|
    ensures |Filters(fields, args)| == GivenCount(args)
    decreases |fields|
  {
    if |fields| > 0 {
      FiltersLength(fields[..|fields| - 1], args[..|args| - 1]);
    }
  }

  /** A given argument adds to the count of every longer prefix. */
  lemma {:induction false} GivenCountGrows(args: seq<Option<string>>, i: nat, j: nat)
    requires i < j <= |args| && Given(args[i])
    ensures GivenCount(args[..i]) < GivenCount(args[..j])
    decreases j - i
  {
    var pre := args[..j][..j - 1];
    assert pre == args[..j - 1];
    if j - 1 > i {
      GivenCountGrows(args, i, j - 1);
    } else {
      assert args[..j][j - 1] == args[i];
    }
  }

  /** A filter of an earlier field comes before a filter of a later one. */
  lemma FiltersKeepFieldOrder(fields: seq<Field>, args: seq<Option<string>>, i: nat, j: nat)
    requires |fields| == |args| && i < j < |args| && Given(args[i]) && Given(args[j])
    ensures GivenCount(args[..i]) < GivenCount(args[..j]) < |Filters(fields, args)|
    ensures Filters(fields, args)[GivenCount(args[..i])] == Where(fields[i], args[i].value)
    ensures Filters(fields, args)[GivenCount(args[..j])] == Where(fields[j], args[j].value)
  {
    GivenCountGrows(args, i, j);
    FiltersInOrder(fields, args, i);
    FiltersInOrder(fields, args, j);
  }

  const BATCH_FILTER_FIELDS: seq<Field> := [InterestField, LevelField, GameModeField]

  const QUESTION_FILTER_FIELDS: seq<Field> := [BatchIdField, StatusField, InterestField, LevelField, GameModeField]

  /** The status filter compares the stored tag. */
  function StatusArg(status: Option<QuestionStatus>): (r: Option<string>)
    ensures Given(r) <==> status.Some?
  {
    if status.Some? then Some(QuestionStatusName(status.value)) else None
  }

  /** The batch listing's query: its filters, then newest first. */
  function BatchQuery(interest: Option<string>, level: Option<string>, gameMode: Option<string>): seq<Constraint>
  {
    Filters(BATCH_FILTER_FIELDS, [interest, level, gameMode]) + [OrderByDesc(CreatedAtField)]
  }

  /** The question listing's query: its filters, then newest first. */
  function QuestionQuery(batchId: Option<string>, status: Option<QuestionStatus>, interest: Option<string>,
                         level: Option<string>, gameMode: Option<string>): seq<Constraint>
  {
    Filters(QUESTION_FILTER_FIELDS, [batchId, StatusArg(status), interest, level, gameMode]) + [OrderByDesc(CreatedAtField)]
  }

  /** The pool listing's query: the same filters as the batch listing and no sort. */
  function PoolQuery(interest: Option<string>, level: Option<string>, gameMode: Option<string>): seq<Constraint>
  {
    Filters(BATCH_FILTER_FIELDS, [interest, level, gameMode])
  }

  /** The three location filters, pushed one `if` at a time. */
  method PushLocation(before: seq<Constraint>, interest: Option<string>, level: Option<string>, gameMode: Option<string>)
    returns (constraints: seq<Constraint>)
    ensures constraints == before + Push(InterestField, interest) + Push(LevelField, level) + Push(GameModeField, gameMode)
  {
    constraints := before;
    if Given(interest) {
      constraints := constraints + [Where(InterestField, interest.value)];
    }
    if Given(level) {
      constraints := constraints + [Where(LevelField, level.value)];
    }
    if Given(gameMode) {
      constraints := constraints + [Where(GameModeField, gameMode.value)];
    }
  }

  /** Three fields' filters are the three pushes in order. */
  lemma FiltersOfThree(fields: seq<Field>, args: seq<Option<string>>)
    requires |fields| == |args| == 3
    ensures Filters(fields, args) == Push(fields[0], args[0]) + Push(fields[1], args[1]) + Push(fields[2], args[2])
  {
    assert fields[..0] == [] && args[..0] == [];
    FiltersStep(fields, args, 0);
    FiltersStep(fields, args, 1);
    FiltersStep(fields, args, 2);
    assert fields[..3] == fields && args[..3] == args;
  }

  /** Five fields' filters are the five pushes in order. */
  lemma FiltersOfFive(fields: seq<Field>, args: seq<Option<string>>)
    requires |fields| == |args| == 5
    ensures Filters(fields, args) == Push(fields[0], args[0]) + Push(fields[1], args[1])
                                   + Push(fields[2], args[2]) + Push(fields[3], args[3]) + Push(fields[4], args[4])
  {
    FiltersOfThree(fields[..3], args[..3]);
    FiltersStep(fields, args, 3);
    FiltersStep(fields, args, 4);
    assert fields[..3][..3] == fields[..3] && args[..3][..3] == args[..3];
    assert fields[..5] == fields && args[..5] == args;
  }

  lemma LocationFilters(interest: Option<string>, level: Option<string>, gameMode: Option<string>)
    ensures Filters(BATCH_FILTER_FIELDS, [interest, level, gameMode])
         == Push(InterestField, interest) + Push(LevelField, level) + Push(GameModeField, gameMode)
  {
    FiltersOfThree(BATCH_FILTER_FIELDS, [interest, level, gameMode]);
  }

  lemma QuestionFilters(batchId: Option<string>, status: Option<QuestionStatus>, interest: Option<string>,
                        level: Option<string>, gameMode: Option<string>)
    ensures Filters(QUESTION_FILTER_FIELDS, [batchId, StatusArg(status), interest, level, gameMode])
         == Push(BatchIdField, batchId) + Push(StatusField, StatusArg(status))
          + Push(InterestField, interest) + Push(LevelField, level) + Push(GameModeField, gameMode)
  {
    FiltersOfFive(QUESTION_FILTER_FIELDS, [batchId, StatusArg(status), interest, level, gameMode]);
  }

  /** useQuizTemplateBatches: push each given filter, then the sort. */
  method BatchConstraints(interest: Option<string>, level: Option<string>, gameMode: Option<string>)
    returns (constraints: seq<Constraint>)
    ensures constraints == BatchQuery(interest, level, gameMode)
  {
    constraints := PushLocation([], interest, level, gameMode);
    constraints := constraints + [OrderByDesc(CreatedAtField)];
    LocationFilters(interest, level, gameMode);
  }

  /** useQuizTemplateQuestions: push each given filter, then the sort. */
  method QuestionConstraints(batchId: Option<string>, status: Option<QuestionStatus>, interest: Option<string>,
                             level: Option<string>, gameMode: Option<string>)
    returns (constraints: seq<Constraint>)
    ensures constraints == QuestionQuery(batchId, status, interest, level, gameMode)
  {
    constraints := [];
    if Given(batchId) {
      constraints := constraints + [Where(BatchIdField, batchId.value)];
    }
    if status.Some? {
      constraints := constraints + [Where(StatusField, QuestionStatusName(status.value))];
    }
    assert constraints == Push(BatchIdField, batchId) + Push(StatusField, StatusArg(status));
    constraints := PushLocation(constraints, interest, level, gameMode);
    constraints := constraints + [OrderByDesc(CreatedAtField)];
    QuestionFilters(batchId, status, interest, level, gameMode);
  }

  /** useApprovedQuestionPools: push each given filter; no sort. */
  method PoolConstraints(interest: Option<string>, level: Option<string>, gameMode: Option<string>)
    returns (constraints: seq<Constraint>)
    ensures constraints == PoolQuery(interest, level, gameMode)
  {
    constraints := PushLocation([], interest, level, gameMode);
    LocationFilters(interest, level, gameMode);
  }

  /** The stored fields a batch or pool query can filter on. */
  function LocationField(interest: string, level: string, gameMode: string, f: Field): Option<string>
  {
    match f
    case InterestField => Some(interest)
    case LevelField => Some(level)
    case GameModeField => Some(gameMode)
    case _ => None
  }

  /** The stored fields a question query can filter on; the status is stored as its tag. */
  function QuestionField(q: TemplateQuestion, f: Field): Option<string>
  {
    match f
    case BatchIdField => Some(q.batchId)
    case StatusField => Some(QuestionStatusName(q.status))
    case CreatedAtField => None
    case _ => LocationField(q.interest, q.level, q.gameMode, f)
  }

  /** The sort admits everything. */
  lemma AdmitsSort(get: Field -> Option<string>, f: Field)
    ensures Admits(get, [OrderByDesc(f)])
  {
  }

  /** A pool listing admits exactly the records that match every given location filter. */
  lemma PoolQueryMeaning(interest: string, level: string, gameMode: string,
                         qi: Option<string>, ql: Option<string>, qg: Option<string>)
    ensures var cs := PoolQuery(qi, ql, qg);
      && |cs| == GivenCount([qi, ql, qg])
      && (forall k :: 0 <= k < |cs| ==> cs[k].Where?)
      && (Admits(f => LocationField(interest, level, gameMode, f), cs) <==>
            && (Given(qi) ==> interest == qi.value)
            && (Given(ql) ==> level == ql.value)
            && (Given(qg) ==> gameMode == qg.value))
  {
    var args := [qi, ql, qg];
    var get := f => LocationField(interest, level, gameMode, f);
    FiltersLength(BATCH_FILTER_FIELDS, args);
    FiltersAreWheres(BATCH_FILTER_FIELDS, args);
    FiltersMeaning(get, BATCH_FILTER_FIELDS, args);
    assert args[0] == qi && args[1] == ql && args[2] == qg;
  }

  /**
   * A batch listing is the pool listing's filters followed by the
   * newest-first sort, and it admits the same records.
   */
  lemma BatchQueryMeaning(interest: string, level: string, gameMode: string,
                          qi: Option<string>, ql: Option<string>, qg: Option<string>)
    ensures var cs := BatchQuery(qi, ql, qg);
      && |cs| == GivenCount([qi, ql, qg]) + 1
      && cs[|cs| - 1] == OrderByDesc(CreatedAtField)
      && (forall k :: 0 <= k < |cs| - 1 ==> cs[k].Where?)
      && (Admits(f => LocationField(interest, level, gameMode, f), cs)
          <==> Admits(f => LocationField(interest, level, gameMode, f), PoolQuery(qi, ql, qg)))
  {
    var args := [qi, ql, qg];
    var get := f => LocationField(interest, level, gameMode, f);
    FiltersLength(BATCH_FILTER_FIELDS, args);
    FiltersAreWheres(BATCH_FILTER_FIELDS, args);
    AdmitsConcat(get, Filters(BATCH_FILTER_FIELDS, args), [OrderByDesc(CreatedAtField)]);
    AdmitsSort(get, CreatedAtField);
  }

  /** Equal tags mean equal statuses. */
  lemma StatusNamesDiffer(s: QuestionStatus, t: QuestionStatus)
    ensures QuestionStatusName(s) == QuestionStatusName(t) <==> s == t
  {
  }

  /**
   * The question listing shows exactly the questions that match every given
   * filter, the status compared by value, and ends with the newest-first sort.
   */
  lemma QuestionQueryMeaning(q: TemplateQuestion, batchId: Option<string>, status: Option<QuestionStatus>,
                             interest: Option<string>, level: Option<string>, gameMode: Option<string>)
    ensures var cs := QuestionQuery(batchId, status, interest, level, gameMode);
      && |cs| == GivenCount([batchId, StatusArg(status), interest, level, gameMode]) + 1
      && cs[|cs| - 1] == OrderByDesc(CreatedAtField)
      && (forall k :: 0 <= k < |cs| - 1 ==> cs[k].Where?)
      && (Admits(f => QuestionField(q, f), cs) <==>
            && (Given(batchId) ==> q.batchId == batchId.value)
            && (status.Some? ==> q.status == status.value)
            && (Given(interest) ==> q.interest == interest.value)
            && (Given(level) ==> q.level == level.value)
            && (Given(gameMode) ==> q.gameMode == gameMode.value))
  {
    var args := [batchId, StatusArg(status), interest, level, gameMode];
    var get := f => QuestionField(q, f);
    FiltersLength(QUESTION_FILTER_FIELDS, args);
    FiltersAreWheres(QUESTION_FILTER_FIELDS, args);
    QuestionFiltersAdmit(q, batchId, status, interest, level, gameMode);
    AdmitsConcat(get, Filters(QUESTION_FILTER_FIELDS, args), [OrderByDesc(CreatedAtField)]);
    AdmitsSort(get, CreatedAtField);
  }

  lemma QuestionFiltersAdmit(q: TemplateQuestion, batchId: Option<string>, status: Option<QuestionStatus>,
                             interest: Option<string>, level: Option<string>, gameMode: Option<string>)
    ensures Admits(f => QuestionField(q, f), Filters(QUESTION_FILTER_FIELDS, [batchId, StatusArg(status), interest, level, gameMode])) <==>
      && (Given(batchId) ==> q.batchId == batchId.value)
      && (status.Some? ==> q.status == status.value)
      && (Given(interest) ==> q.interest == interest.value)
      && (Given(level) ==> q.level == level.value)
      && (Given(gameMode) ==> q.gameMode == gameMode.value)
  {
    var args := [batchId, StatusArg(status), interest, level, gameMode];
    FiltersMeaning(f => QuestionField(q, f), QUESTION_FILTER_FIELDS, args);
    assert args[0] == batchId && args[1] == StatusArg(status) && args[2] == interest && args[3] == level && args[4] == gameMode;
    if status.Some? {
      StatusNamesDiffer(q.status, status.value);
    }
  }

  // ---------------------------------------------------------------------
  // updateStats.
  // ---------------------------------------------------------------------

  /** The per-batch row of the stats panel. */
  datatype BatchSummary = BatchSummary(
    id: string,
    batchNumber: nat,
    approvedCount: int,
    pendingCount: int,
    rejectedCount: int,
    status: BatchStatus)

  datatype TemplateStats = TemplateStats(
    totalBatches: nat,
    totalGenerated: nat,
    totalApproved: int,
    totalPending: nat,
    totalRejected: nat,
    batches: seq<BatchSummary>)

  function Summary(b: TemplateBatch): BatchSummary
  {
    BatchSummary(b.id, b.batchNumber, b.approvedCount, b.pendingCount, b.rejectedCount, b.status)
  }

  /** The number of questions with a status: the length of the filtered list. */
  function StatusCount(qs: seq<TemplateQuestion>, st: QuestionStatus): (r: nat)
    ensures r <= |qs|
    decreases |qs|
  {
    if |qs| == 0 then 0
    else StatusCount(qs[..|qs| - 1], st) + (if qs[|qs| - 1].status == st then 1 else 0)
  }

  function Summaries(batches: seq<TemplateBatch>): (r: seq<BatchSummary>)
    ensures |r| == |batches|
    decreases |batches|
  {
    if |batches| == 0 then [] else Summaries(batches[..|batches| - 1]) + [Summary(batches[|batches| - 1])]
  }

  /** updateStats, from the three snapshots of one (interest, level, game mode) key. */
  function UpdateStats(batches: seq<TemplateBatch>, pools: seq<Pool>, questions: seq<TemplateQuestion>): (r: TemplateStats)
    ensures r.totalBatches == |batches| && r.totalGenerated == |questions|
    ensures r.totalApproved == (if |pools| == 0 then 0 else pools[0].totalQuestions)
    ensures r.totalPending == StatusCount(questions, Pending) && r.totalRejected == StatusCount(questions, Rejected)
  {
    var first := if |pools| == 0 then 0 else pools[0].totalQuestions;
    TemplateStats(|batches|, |questions|, first,
                  StatusCount(questions, Pending), StatusCount(questions, Rejected), Summaries(batches))
  }

  /** The four status counts add up to the number of questions, so pending plus rejected never exceeds it. */
  lemma {:induction false} StatusCountsAddUp(qs: seq<TemplateQuestion>)
    ensures StatusCount(qs, Pending) + StatusCount(qs, Approved) + StatusCount(qs, Rejected)
          + StatusCount(qs, NeedsRevision) == |qs|
    decreases |qs|
  {
    if |qs| > 0 {
      StatusCountsAddUp(qs[..|qs| - 1]);
    }
  }

  lemma StatsPendingAndRejectedBounded(batches: seq<TemplateBatch>, pools: seq<Pool>, questions: seq<TemplateQuestion>)
    ensures var r := UpdateStats(batches, pools, questions);
      r.totalPending + r.totalRejected <= r.totalGenerated
  {
    StatusCountsAddUp(questions);
  }

  /** The batch rows are the projections of the batches, one for one and in the same order. */
  lemma {:induction false} SummariesProject(batches: seq<TemplateBatch>)
    ensures forall i :: 0 <= i < |batches| ==> Summaries(batches)[i] == Summary(batches[i])
    decreases |batches|
  {
    if |batches| > 0 {
      var n := |batches| - 1;
      SummariesProject(batches[..n]);
      assert forall i :: 0 <= i < n ==> batches[..n][i] == batches[i];
    }
  }

  /** The documents with ids `ids`, in that order. */
  function Docs(qs: map<string, TemplateQuestion>, ids: seq<string>): (r: seq<TemplateQuestion>)
    requires forall k :: 0 <= k < |ids| ==> ids[k] in qs
    ensures |r| == |ids|
    decreases |ids|
  {
    if |ids| == 0 then [] else Docs(qs, ids[..|ids| - 1]) + [qs[ids[|ids| - 1]]]
  }

  function WithStatus(qs: map<string, TemplateQuestion>, ids: set<string>, st: QuestionStatus): set<string>
  {
    set id | id in ids && id in qs && qs[id].status == st
  }

  /** Over a listing without repeated ids, a status count is the size of the set of ids with that status. */
  lemma {:induction false} StatusCountIsCardinality(qs: map<string, TemplateQuestion>, ids: seq<string>, st: QuestionStatus)
    requires Distinct(ids) && forall k :: 0 <= k < |ids| ==> ids[k] in qs
    ensures StatusCount(Docs(qs, ids), st) == |WithStatus(qs, IdSet(ids), st)|
    decreases |ids|
  {
    if |ids| > 0 {
      var n := |ids| - 1;
      var pre, x := ids[..n], ids[n];
      DistinctSplit(ids);
      StatusCountIsCardinality(qs, pre, st);
      DocsSnoc(qs, ids);
      IdSetSnoc(ids);
      WithStatusAdd(qs, IdSet(pre), x, st);
    }
  }

  lemma DocsSnoc(qs: map<string, TemplateQuestion>, ids: seq<string>)
    requires |ids| > 0 && forall k :: 0 <= k < |ids| ==> ids[k] in qs
    ensures var n := |ids| - 1;
      forall st :: StatusCount(Docs(qs, ids), st) == StatusCount(Docs(qs, ids[..n]), st) + (if qs[ids[n]].status == st then 1 else 0)
  {
    var n := |ids| - 1;
    var d := Docs(qs, ids);
    assert d[..n] == Docs(qs, ids[..n]);
    assert d[n] == qs[ids[n]];
  }

  lemma IdSetSnoc(ids: seq<string>)
    requires |ids| > 0
    ensures IdSet(ids) == IdSet(ids[..|ids| - 1]) + {ids[|ids| - 1]}
  {
    assert ids == ids[..|ids| - 1] + [ids[|ids| - 1]];
  }

  lemma WithStatusAdd(qs: map<string, TemplateQuestion>, ids: set<string>, x: string, st: QuestionStatus)
    requires x !in ids && x in qs
    ensures |WithStatus(qs, ids + {x}, st)| == |WithStatus(qs, ids, st)| + (if qs[x].status == st then 1 else 0)
  {
    var before := WithStatus(qs, ids, st);
    if qs[x].status == st {
      assert WithStatus(qs, ids + {x}, st) == before + {x};
    } else {
      assert WithStatus(qs, ids + {x}, st) == before;
    }
  }

  /**
   * When the store's pool totals are consistent, the stats panel's approved
   * figure, read from the key's pool, is the number of approved questions
   * in the key's question snapshot, a listing of the key's items each once.
   */
  lemma StatsApprovedAgrees(s: Store, interest: string, level: string, gameMode: string,
                            batches: seq<TemplateBatch>, ids: seq<string>)
    requires PoolTotalsMatch(s) && PoolId(interest, level, gameMode) in s.pools
    requires Distinct(ids) && forall k :: 0 <= k < |ids| ==> ids[k] in s.questions
    requires forall x :: x in s.questions && PoolOf(s.questions[x]) == PoolId(interest, level, gameMode)
                         <==> x in ids
    ensures UpdateStats(batches, [s.pools[PoolId(interest, level, gameMode)]], Docs(s.questions, ids)).totalApproved
         == StatusCount(Docs(s.questions, ids), Approved)
  {
    var p := PoolId(interest, level, gameMode);
    StatusCountIsCardinality(s.questions, ids, Approved);
    ApprovedOfListing(s.questions, p, ids);
  }

  lemma ApprovedOfListing(qs: map<string, TemplateQuestion>, p: string, ids: seq<string>)
    requires forall x :: x in qs && PoolOf(qs[x]) == p <==> x in ids
    ensures WithStatus(qs, IdSet(ids), Approved) == ApprovedInPool(qs, p)
  {
  }
}
