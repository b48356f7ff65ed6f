/**
 * Records of the moderation pipeline: the generated question, the persisted
 * template question, the batch aggregate and the approved-question pool, and
 * the two status enumerations.
 */
module TemplateTypes {

  import opened Wrappers
  import opened JsLib

  /** Server timestamps are opaque tokens supplied by the caller. */
  type Timestamp = int

  datatype QuestionStatus = Pending | Approved | Rejected | NeedsRevision

  datatype BatchStatus = AllPending | PartiallyApproved | AllApproved | Failed

  /** The tag each question status is stored under. */
  function QuestionStatusName(s: QuestionStatus): (r: string)
    ensures r == "pending" <==> s == Pending
    ensures r == "approved" <==> s == Approved
    ensures r == "rejected" <==> s == Rejected
    ensures r == "needs_revision" <==> s == NeedsRevision
  {
    match s
    case Pending => "pending"
    case Approved => "approved"
    case Rejected => "rejected"
    case NeedsRevision => "needs_revision"
  }

  /** The tag each batch status is stored under. */
  function BatchStatusName(s: BatchStatus): (r: string)
    ensures r == "all_pending" <==> s == AllPending
    ensures r == "partially_approved" <==> s == PartiallyApproved
    ensures r == "all_approved" <==> s == AllApproved
    ensures r == "failed" <==> s == Failed
  {
    match s
    case AllPending => "all_pending"
    case PartiallyApproved => "partially_approved"
    case AllApproved => "all_approved"
    case Failed => "failed"
  }

  /** One generated quiz question; `passage` is present only for reading comprehension. */
  datatype Question = Question(
    passage: Option<string>,
    question: string,
    options: seq<string>,
    correctIndex: int,
    explanation: string,
    clue: string)

  /** A persisted, moderatable question. Optional timestamps are absent fields. */
  datatype TemplateQuestion = TemplateQuestion(
    id: string,
    interest: string,
    level: string,
    gameMode: string,
    difficulty: string,
    batchId: string,
    batchNumber: nat,
    questionIndex: nat,
    content: Question,
    status: QuestionStatus,
    createdAt: Timestamp,
    approvedAt: Option<Timestamp>,
    approvedBy: Option<string>,
    rejectedAt: Option<Timestamp>,
    rejectionReason: Option<string>,
    updatedAt: Option<Timestamp>)

  /**
   * The aggregate of one generation run. Counters are integers: nothing in
   * the moderation handlers stops them from going below zero.
   */
  datatype TemplateBatch = TemplateBatch(
    id: string,
    interest: string,
    level: string,
    gameMode: string,
    difficulty: string,
    batchNumber: nat,
    totalQuestions: int,
    approvedCount: int,
    pendingCount: int,
    rejectedCount: int,
    status: BatchStatus,
    requestedQuestions: int,
    createdAt: Timestamp,
    lastReviewedAt: Option<Timestamp>)

  /** The approved-question pool of one (interest, level, game mode) key. */
  datatype Pool = Pool(
    id: string,
    interest: string,
    level: string,
    gameMode: string,
    difficulty: string,
    totalQuestions: int,
    sourceBatches: set<string>,
    lastUpdated: Timestamp)

  /** Pool document id: interest, level and game mode joined by underscores. */
  function PoolId(interest: string, level: string, gameMode: string): string
  {
    interest + "_" + level + "_" + gameMode
  }

  /** Batch document id: the pool id followed by `_batch` and the batch number. */
  function BatchId(interest: string, level: string, gameMode: string, batchNumber: nat): string
  {
    interest + "_" + level + "_" + gameMode + "_batch" + NatToString(batchNumber)
  }

  /** The pool a stored question belongs to. */
  function PoolOf(q: TemplateQuestion): string
  {
    PoolId(q.interest, q.level, q.gameMode)
  }

  /** A batch id starts with the id of the pool its questions feed, so the documented shapes agree. */
  lemma BatchIdExtendsPoolId(interest: string, level: string, gameMode: string, n: nat)
    ensures BatchId(interest, level, gameMode, n) == PoolId(interest, level, gameMode) + "_batch" + NatToString(n)
    ensures PoolId(interest, level, gameMode) <= BatchId(interest, level, gameMode, n)
  {
  }

  /** Distinct batch numbers of the same key give distinct batch ids. */
  lemma BatchIdInjective(interest: string, level: string, gameMode: string, m: nat, n: nat)
    requires BatchId(interest, level, gameMode, m) == BatchId(interest, level, gameMode, n)
    ensures m == n
  {
    var p := interest + "_" + level + "_" + gameMode + "_batch";
    assert BatchId(interest, level, gameMode, m) == p + NatToString(m);
    assert BatchId(interest, level, gameMode, n) == p + NatToString(n);
    assert NatToString(m) == BatchId(interest, level, gameMode, m)[|p|..];
    assert NatToString(n) == BatchId(interest, level, gameMode, n)[|p|..];
    NatToStringInjective(m, n);
  }

  /** Item document id: the batch id followed by `_q` and the item's index in the batch. */
  function ItemId(batchId: string, index: nat): string
  {
    batchId + "_q" + NatToString(index)
  }

  predicate NoUnderscore(s: string)
  {
    forall k :: 0 <= k < |s| ==> s[k] != '_'
  }

  /** In `a + "_" + r` with no underscore in `a`, the first underscore is at `|a|`. */
  lemma UnderscoreAfter(a: string, r: string)
    requires NoUnderscore(a)
    ensures (a + "_" + r)[|a|] == '_'
    ensures forall k :: 0 <= k < |a| ==> (a + "_" + r)[k] != '_'
  {
  }

  /** In an item id, the last underscore is the one before `q` and the index. */
  lemma UnderscoreBeforeIndex(b: string, j: nat)
    ensures ItemId(b, j)[|b|] == '_'
    ensures forall k :: |b| < k < |ItemId(b, j)| ==> ItemId(b, j)[k] != '_'
  {
    var d := NatToString(j);
    forall k | |b| < k < |ItemId(b, j)|
      ensures ItemId(b, j)[k] != '_'
    {
      if k > |b| + 1 {
        assert ItemId(b, j)[k] == d[k - |b| - 2];
      }
    }
  }

  /** Splitting at the first underscore: a part without underscores is recovered from the join. */
  lemma UnderscoreSplit(a: string, r: string, a2: string, r2: string)
    requires NoUnderscore(a) && NoUnderscore(a2)
    requires a + "_" + r == a2 + "_" + r2
    ensures a == a2 && r == r2
  {
    var t := a + "_" + r;
    UnderscoreAfter(a, r);
    UnderscoreAfter(a2, r2);
    assert a == t[..|a|];
    assert a2 == (a2 + "_" + r2)[..|a2|];
    assert r == t[|a| + 1..];
    assert r2 == (a2 + "_" + r2)[|a2| + 1..];
  }

  /**
   * When interest, level and game mode contain no underscore, a batch id
   * determines all four of its parts.
   */
  lemma BatchIdDeterminesKey(i: string, l: string, g: string, n: nat, i2: string, l2: string, g2: string, n2: nat)
    requires NoUnderscore(i) && NoUnderscore(l) && NoUnderscore(g)
    requires NoUnderscore(i2) && NoUnderscore(l2) && NoUnderscore(g2)
    requires BatchId(i, l, g, n) == BatchId(i2, l2, g2, n2)
    ensures i == i2 && l == l2 && g == g2 && n == n2
  {
    var t1 := "batch" + NatToString(n);
    var t2 := "batch" + NatToString(n2);
    BatchIdNested(i, l, g, n);
    BatchIdNested(i2, l2, g2, n2);
    UnderscoreSplit(i, l + "_" + (g + "_" + t1), i2, l2 + "_" + (g2 + "_" + t2));
    UnderscoreSplit(l, g + "_" + t1, l2, g2 + "_" + t2);
    UnderscoreSplit(g, t1, g2, t2);
    assert NatToString(n) == t1[5..] && NatToString(n2) == t2[5..];
    NatToStringInjective(n, n2);
  }

  /** The batch id read as three underscore joins. */
  lemma BatchIdNested(i: string, l: string, g: string, n: nat)
    ensures BatchId(i, l, g, n) == i + "_" + (l + "_" + (g + "_" + ("batch" + NatToString(n))))
  {
    var d := NatToString(n);
    assert "_batch" + d == "_" + ("batch" + d);
    Nest4(i, l, g, "batch" + d);
  }

  lemma Nest4(a: string, b: string, c: string, d: string)
    ensures a + "_" + b + "_" + c + "_" + d == a + "_" + (b + "_" + (c + "_" + d))
  {
  }

  /** An item id determines its batch id and its index, whatever the batch id contains. */
  lemma ItemIdInjective(b: string, j: nat, b2: string, j2: nat)
    requires ItemId(b, j) == ItemId(b2, j2)
    ensures b == b2 && j == j2
  {
    var t := ItemId(b, j);
    var d, d2 := NatToString(j), NatToString(j2);
    assert t == b + "_q" + d && t == b2 + "_q" + d2;
    UnderscoreBeforeIndex(b, j);
    UnderscoreBeforeIndex(b2, j2);
    assert b == t[..|b|] && b2 == t[..|b2|];
    assert d == t[|b| + 2..] && d2 == t[|b2| + 2..];
    NatToStringInjective(j, j2);
  }
}
