/**
 * The batch generation handler: it numbers the new batch after the batches
 * already stored for the same key, takes one generation attempt, writes the
 * batch record first and then all items in one commit, and deletes the
 * batch record again when that commit fails.
 */
module GenerateBatch {

  import opened Wrappers
  import opened JsLib
  import opened Constants
  import opened TemplateTypes
  import opened TemplateStore

  const DEFAULT_QUESTIONS_PER_BATCH: int := 50

  /** The most writes one commit accepts. */
  const MAX_BATCH_WRITES: nat := 500

  /** The handler's own level-to-difficulty rule; every unknown level counts as hard. */
  function DifficultyFromLevel(level: string): (r: string)
    ensures level in DIFFICULTY_BY_LEVEL ==> r == DIFFICULTY_BY_LEVEL[level]
    ensures level !in DIFFICULTY_BY_LEVEL ==> r == "hard"
  {
    if level == "A1" || level == "A2" then "easy"
    else if level == "B1" || level == "B2" then "medium"
    else "hard"
  }

  /** The stored batches of one (interest, level, game mode) key, found by their fields. */
  function KeyBatches(batches: map<string, TemplateBatch>, interest: string, level: string, gameMode: string): set<string>
  {
    set b | b in batches && batches[b].interest == interest && batches[b].level == level && batches[b].gameMode == gameMode
  }

  function NextBatchNumber(s: Store, interest: string, level: string, gameMode: string): nat
  {
    |KeyBatches(s.batches, interest, level, gameMode)| + 1
  }

  function NextBatchId(s: Store, interest: string, level: string, gameMode: string): string
  {
    BatchId(interest, level, gameMode, NextBatchNumber(s, interest, level, gameMode))
  }

  /** The batch record written before the items: every item pending, no review yet. */
  function NewBatch(id: string, interest: string, level: string, gameMode: string, number: nat, n: nat,
                    requested: int, now: Timestamp): TemplateBatch
  {
    TemplateBatch(id, interest, level, gameMode, DifficultyFromLevel(level), number, n, 0, n, 0, AllPending,
                  requested, now, None)
  }

  /** The item record of the `j`-th generated question; an empty passage is stored as absent. */
  function StoredQuestion(batchId: string, interest: string, level: string, gameMode: string, number: nat,
                          j: nat, q: Question, now: Timestamp): TemplateQuestion
  {
    TemplateQuestion(ItemId(batchId, j), interest, level, gameMode, DifficultyFromLevel(level), batchId, number, j,
                     q.(passage := if q.passage.Some? && q.passage.value != "" then q.passage else None),
                     Pending, now, None, None, None, None, None)
  }

  /** The ids of the first `n` items of a batch. */
  function NewIds(batchId: string, n: nat): set<string>
    decreases n
  {
    if n == 0 then {} else NewIds(batchId, n - 1) + {ItemId(batchId, n - 1)}
  }

  /** Every member of `NewIds(batchId, n)` is the id of one of the first `n` items. */
  lemma {:induction false} NewIdIndex(batchId: string, n: nat, x: string) returns (j: nat)
    requires x in NewIds(batchId, n)
    ensures j < n && x == ItemId(batchId, j)
    decreases n
  {
    if x == ItemId(batchId, n - 1) {
      j := n - 1;
    } else {
      j := NewIdIndex(batchId, n - 1, x);
    }
  }

  lemma {:induction false} NewIdsContain(batchId: string, n: nat)
    ensures forall j :: 0 <= j < n ==> ItemId(batchId, j) in NewIds(batchId, n)
    decreases n
  {
    if n > 0 {
      NewIdsContain(batchId, n - 1);
    }
  }

  lemma EarlierIdsDiffer(batchId: string, n: nat)
    ensures ItemId(batchId, n) !in NewIds(batchId, n)
  {
    if ItemId(batchId, n) in NewIds(batchId, n) {
      var j := NewIdIndex(batchId, n, ItemId(batchId, n));
      ItemIdInjective(batchId, j, batchId, n);
    }
  }

  lemma {:induction false} NewIdsCount(batchId: string, n: nat)
    ensures |NewIds(batchId, n)| == n
    decreases n
  {
    if n > 0 {
      NewIdsCount(batchId, n - 1);
      EarlierIdsDiffer(batchId, n - 1);
    }
  }

  /** The item writes of one commit, in question order. */
  function AddItems(qs: map<string, TemplateQuestion>, batchId: string, interest: string, level: string,
                    gameMode: string, number: nat, questions: seq<Question>, now: Timestamp): map<string, TemplateQuestion>
    decreases |questions|
  {
    if |questions| == 0 then qs
    else
      var n := |questions| - 1;
      AddItems(qs, batchId, interest, level, gameMode, number, questions[..n], now)
        [ItemId(batchId, n) := StoredQuestion(batchId, interest, level, gameMode, number, n, questions[n], now)]
  }

  /** The commit adds one item per question under its own id and leaves every other item alone. */
  lemma AddItemsShape(qs: map<string, TemplateQuestion>, batchId: string, interest: string, level: string,
                      gameMode: string, number: nat, questions: seq<Question>, now: Timestamp)
    ensures var r := AddItems(qs, batchId, interest, level, gameMode, number, questions, now);
      && r.Keys == qs.Keys + NewIds(batchId, |questions|)
      && (forall j :: 0 <= j < |questions| ==>
            ItemId(batchId, j) in r && r[ItemId(batchId, j)] == StoredQuestion(batchId, interest, level, gameMode, number, j, questions[j], now))
      && (forall x :: x in qs && x !in NewIds(batchId, |questions|) ==> r[x] == qs[x])
  {
    AddItemsKeys(qs, batchId, interest, level, gameMode, number, questions, now);
    var r := AddItems(qs, batchId, interest, level, gameMode, number, questions, now);
    forall j | 0 <= j < |questions|
      ensures ItemId(batchId, j) in r && r[ItemId(batchId, j)] == StoredQuestion(batchId, interest, level, gameMode, number, j, questions[j], now)
    {
      AddItemsAt(qs, batchId, interest, level, gameMode, number, questions, now, j);
    }
  }

  lemma {:induction false} AddItemsKeys(qs: map<string, TemplateQuestion>, batchId: string, interest: string, level: string,
                                        gameMode: string, number: nat, questions: seq<Question>, now: Timestamp)
    ensures var r := AddItems(qs, batchId, interest, level, gameMode, number, questions, now);
      && r.Keys == qs.Keys + NewIds(batchId, |questions|)
      && (forall x :: x in qs && x !in NewIds(batchId, |questions|) ==> r[x] == qs[x])
    decreases |questions|
  {
    if |questions| > 0 {
      var n := |questions| - 1;
      var pre := questions[..n];
      AddItemsKeys(qs, batchId, interest, level, gameMode, number, pre, now);
      var r0 := AddItems(qs, batchId, interest, level, gameMode, number, pre, now);
      var k := ItemId(batchId, n);
      var r := AddItems(qs, batchId, interest, level, gameMode, number, questions, now);
      assert r == r0[k := StoredQuestion(batchId, interest, level, gameMode, number, n, questions[n], now)];
      assert NewIds(batchId, |questions|) == NewIds(batchId, n) + {k};
      assert r.Keys == r0.Keys + {k};
      forall x | x in qs && x !in NewIds(batchId, |questions|)
        ensures r[x] == qs[x]
      {
        assert x != k && x !in NewIds(batchId, n);
      }
    }
  }

  /** The commit writes item `j` under its own id. */
  lemma {:induction false} AddItemsAt(qs: map<string, TemplateQuestion>, batchId: string, interest: string, level: string,
                                      gameMode: string, number: nat, questions: seq<Question>, now: Timestamp, j: nat)
    requires j < |questions|
    ensures var r := AddItems(qs, batchId, interest, level, gameMode, number, questions, now);
      ItemId(batchId, j) in r && r[ItemId(batchId, j)] == StoredQuestion(batchId, interest, level, gameMode, number, j, questions[j], now)
    decreases |questions|
  {
    var n := |questions| - 1;
    if j < n {
      var pre := questions[..n];
      AddItemsAt(qs, batchId, interest, level, gameMode, number, pre, now, j);
      ItemIdsDiffer(batchId, j, n);
      assert pre[j] == questions[j];
    }
  }

  lemma ItemIdsDiffer(batchId: string, j: nat, k: nat)
    requires j != k
    ensures ItemId(batchId, j) != ItemId(batchId, k)
  {
    if ItemId(batchId, j) == ItemId(batchId, k) {
      ItemIdInjective(batchId, j, batchId, k);
    }
  }

  /**
   * The handler as one transition. Unlike the review handlers it can fail
   * after writing: an oversized result leaves the batch record behind, and
   * so does a failed commit whose cleanup also fails.
   */
  function Generate(s: Store, interest: string, level: string, gameMode: string, questionsPerBatch: Option<int>,
                    generated: Result<seq<Question>, string>, now: Timestamp, commitOk: bool, deleteOk: bool): (o: Outcome<(string, nat)>)
    ensures interest == "" || level == "" || gameMode == "" ==> o == Outcome(Err(MissingFields), s)
    ensures interest != "" && level != "" && gameMode != "" && generated.Err? ==>
      o == Outcome(Err(GenerationFailed(generated.error)), s)
    ensures generated == Ok([]) ==> o.store == s && o.result.Err?
    ensures o.result.Ok? ==>
      && generated.Ok? && 0 < |generated.value| <= MAX_BATCH_WRITES
      && o.result.value == (NextBatchId(s, interest, level, gameMode), |generated.value|)
  {
    if interest == "" || level == "" || gameMode == "" then Outcome(Err(MissingFields), s)
    else
      var number := NextBatchNumber(s, interest, level, gameMode);
      var id := BatchId(interest, level, gameMode, number);
      match generated
      case Err(message) => Outcome(Err(GenerationFailed(message)), s)
      case Ok(questions) =>
        var n := |questions|;
        if n == 0 then Outcome(Err(NoQuestionsGenerated), s)
        else
          var requested := if questionsPerBatch.Some? then questionsPerBatch.value else DEFAULT_QUESTIONS_PER_BATCH;
          var s1 := s.(batches := s.batches[id := NewBatch(id, interest, level, gameMode, number, n, requested, now)]);
          if n > MAX_BATCH_WRITES then Outcome(Err(TooManyQuestions(n)), s1)
          else if !commitOk then Outcome(Err(SaveFailed), if deleteOk then s1.(batches := s1.batches - {id}) else s1)
          else Outcome(Ok((id, n)), s1.(questions := AddItems(s.questions, id, interest, level, gameMode, number, questions, now)))
  }

  // ---------------------------------------------------------------------
  // Document ids.
  // ---------------------------------------------------------------------

  /**
   * Every batch id is built from its own key and number, the key has no
   * underscores, the number does not exceed the key's batch count, and every
   * item id is built from its batch id and index.
   */
  predicate IdsWellFormed(s: Store)
  {
    BatchIdsOk(s.batches) && ItemIdsOk(s.questions)
  }

  predicate BatchIdsOk(batches: map<string, TemplateBatch>)
  {
    forall b :: b in batches ==>
      && BatchNamed(b, batches[b])
      && batches[b].batchNumber <= |KeyBatches(batches, batches[b].interest, batches[b].level, batches[b].gameMode)|
  }

  /** A batch record's id is built from its own underscore-free key and its number. */
  predicate BatchNamed(b: string, batch: TemplateBatch)
  {
    && NoUnderscore(batch.interest) && NoUnderscore(batch.level) && NoUnderscore(batch.gameMode)
    && b == BatchId(batch.interest, batch.level, batch.gameMode, batch.batchNumber)
  }

  predicate ItemIdsOk(qs: map<string, TemplateQuestion>)
  {
    forall x :: x in qs ==> x == ItemId(qs[x].batchId, qs[x].questionIndex)
  }

  /** Numbering after the key's batch count picks an id no stored batch has. */
  lemma NextBatchIdFresh(s: Store, interest: string, level: string, gameMode: string)
    requires IdsWellFormed(s)
    requires NoUnderscore(interest) && NoUnderscore(level) && NoUnderscore(gameMode)
    ensures NextBatchId(s, interest, level, gameMode) !in s.batches
  {
    var id := NextBatchId(s, interest, level, gameMode);
    if id in s.batches {
      var r := s.batches[id];
      BatchIdDeterminesKey(interest, level, gameMode, NextBatchNumber(s, interest, level, gameMode),
                           r.interest, r.level, r.gameMode, r.batchNumber);
    }
  }

  /** No stored item has an id of a batch that is not stored. */
  lemma NewItemIdsFresh(s: Store, id: string, n: nat)
    requires IdsWellFormed(s) && ParentsExist(s) && id !in s.batches
    ensures NewIds(id, n) * s.questions.Keys == {}
    ensures ItemsOf(s.questions, id) == {}
  {
    forall x | x in NewIds(id, n) && x in s.questions
      ensures false
    {
      var j := NewIdIndex(id, n, x);
      ItemIdInjective(id, j, s.questions[x].batchId, s.questions[x].questionIndex);
    }
  }

  // ---------------------------------------------------------------------
  // What a successful run keeps.
  // ---------------------------------------------------------------------

  /** The inputs of a run that writes a full batch and its items. */
  predicate SuccessfulRun(s: Store, interest: string, level: string, gameMode: string,
                          generated: Result<seq<Question>, string>, commitOk: bool)
  {
    && interest != "" && level != "" && gameMode != ""
    && generated.Ok? && 0 < |generated.value| <= MAX_BATCH_WRITES && commitOk
  }

  lemma GenerateOkShape(s: Store, interest: string, level: string, gameMode: string, questionsPerBatch: Option<int>,
                        generated: Result<seq<Question>, string>, now: Timestamp, commitOk: bool, deleteOk: bool)
    requires SuccessfulRun(s, interest, level, gameMode, generated, commitOk)
    ensures var o := Generate(s, interest, level, gameMode, questionsPerBatch, generated, now, commitOk, deleteOk);
      var number := NextBatchNumber(s, interest, level, gameMode);
      var id := NextBatchId(s, interest, level, gameMode);
      var requested := if questionsPerBatch.Some? then questionsPerBatch.value else DEFAULT_QUESTIONS_PER_BATCH;
      && o.result.Ok?
      && o.store.pools == s.pools
      && o.store.batches == s.batches[id := NewBatch(id, interest, level, gameMode, number, |generated.value|, requested, now)]
      && o.store.questions == AddItems(s.questions, id, interest, level, gameMode, number, generated.value, now)
  {
  }

  /** Every added item lies in the new batch, is pending and carries its own id. */
  lemma AddedItem(qs: map<string, TemplateQuestion>, id: string, interest: string, level: string, gameMode: string,
                  number: nat, questions: seq<Question>, now: Timestamp, x: string)
    requires x in NewIds(id, |questions|)
    ensures var qs2 := AddItems(qs, id, interest, level, gameMode, number, questions, now);
      x in qs2 && qs2[x].batchId == id && qs2[x].status == Pending && x == ItemId(qs2[x].batchId, qs2[x].questionIndex)
  {
    AddItemsShape(qs, id, interest, level, gameMode, number, questions, now);
    var j := NewIdIndex(id, |questions|, x);
  }

  /** The new batch's counters describe exactly its new items, all pending. */
  lemma NewBatchItemSets(qs: map<string, TemplateQuestion>, id: string, interest: string, level: string, gameMode: string,
                         number: nat, questions: seq<Question>, now: Timestamp)
    requires NewIds(id, |questions|) * qs.Keys == {} && ItemsOf(qs, id) == {}
    ensures var qs2 := AddItems(qs, id, interest, level, gameMode, number, questions, now);
      && ItemsOf(qs2, id) == NewIds(id, |questions|)
      && ItemsWith(qs2, id, Pending) == NewIds(id, |questions|)
      && ItemsWith(qs2, id, Approved) == {}
      && ItemsWith(qs2, id, Rejected) == {}
  {
    var qs2 := AddItems(qs, id, interest, level, gameMode, number, questions, now);
    AddItemsShape(qs, id, interest, level, gameMode, number, questions, now);
    forall x | x in NewIds(id, |questions|)
      ensures x in qs2 && qs2[x].batchId == id && qs2[x].status == Pending
    {
      AddedItem(qs, id, interest, level, gameMode, number, questions, now, x);
    }
    assert forall x :: x in qs && x !in NewIds(id, |questions|) ==> qs2[x] == qs[x] && qs[x].batchId != id;
  }

  /** An old batch keeps its item sets: every new item lies in the new batch. */
  lemma OtherBatchItemSets(qs: map<string, TemplateQuestion>, id: string, interest: string, level: string, gameMode: string,
                           number: nat, questions: seq<Question>, now: Timestamp, b: string)
    requires NewIds(id, |questions|) * qs.Keys == {} && b != id
    ensures var qs2 := AddItems(qs, id, interest, level, gameMode, number, questions, now);
      && ItemsOf(qs2, b) == ItemsOf(qs, b)
      && ItemsWith(qs2, b, Approved) == ItemsWith(qs, b, Approved)
      && ItemsWith(qs2, b, Pending) == ItemsWith(qs, b, Pending)
      && ItemsWith(qs2, b, Rejected) == ItemsWith(qs, b, Rejected)
  {
    var qs2 := AddItems(qs, id, interest, level, gameMode, number, questions, now);
    AddItemsShape(qs, id, interest, level, gameMode, number, questions, now);
    forall x | x in NewIds(id, |questions|)
      ensures x in qs2 && qs2[x].batchId != b
    {
      AddedItem(qs, id, interest, level, gameMode, number, questions, now, x);
    }
    OutsideAdditions(qs, qs2, NewIds(id, |questions|), b);
  }

  /** Adding items that all lie outside batch `b` leaves `b`'s item sets alone. */
  lemma OutsideAdditions(qs: map<string, TemplateQuestion>, qs2: map<string, TemplateQuestion>, added: set<string>, b: string)
    requires qs2.Keys == qs.Keys + added && added * qs.Keys == {}
    requires forall x :: x in qs && x !in added ==> qs2[x] == qs[x]
    requires forall x :: x in added ==> x in qs2 && qs2[x].batchId != b
    ensures ItemsOf(qs2, b) == ItemsOf(qs, b)
    ensures forall st :: ItemsWith(qs2, b, st) == ItemsWith(qs, b, st)
  {
    KeptOutsideAdditions(qs, qs2, added);
    assert forall x :: x in qs2 && qs2[x].batchId == b ==> x in qs;
  }

  /** The old items keep their records. */
  lemma KeptOutsideAdditions(qs: map<string, TemplateQuestion>, qs2: map<string, TemplateQuestion>, added: set<string>)
    requires qs2.Keys == qs.Keys + added && added * qs.Keys == {}
    requires forall x :: x in qs && x !in added ==> qs2[x] == qs[x]
    ensures forall x :: x in qs ==> x in qs2 && qs2[x] == qs[x]
  {
    forall x | x in qs
      ensures x in qs2 && qs2[x] == qs[x]
    {
      assert x !in added by {
        assert x in qs.Keys && (x in added ==> x in added * qs.Keys);
      }
    }
  }

  /** Adding items none of which is approved leaves every pool's approved set alone. */
  lemma UnapprovedAdditions(qs: map<string, TemplateQuestion>, qs2: map<string, TemplateQuestion>, added: set<string>, p: string)
    requires qs2.Keys == qs.Keys + added && added * qs.Keys == {}
    requires forall x :: x in qs && x !in added ==> qs2[x] == qs[x]
    requires forall x :: x in added ==> x in qs2 && qs2[x].status != Approved
    ensures ApprovedInPool(qs2, p) == ApprovedInPool(qs, p)
  {
    KeptOutsideAdditions(qs, qs2, added);
    assert forall x :: x in qs2 && qs2[x].status == Approved ==> x in qs;
  }

  lemma AddedItemsNotApproved(qs: map<string, TemplateQuestion>, id: string, interest: string, level: string, gameMode: string,
                              number: nat, questions: seq<Question>, now: Timestamp, p: string)
    requires NewIds(id, |questions|) * qs.Keys == {}
    ensures ApprovedInPool(AddItems(qs, id, interest, level, gameMode, number, questions, now), p) == ApprovedInPool(qs, p)
  {
    var qs2 := AddItems(qs, id, interest, level, gameMode, number, questions, now);
    AddItemsShape(qs, id, interest, level, gameMode, number, questions, now);
    forall x | x in NewIds(id, |questions|)
      ensures x in qs2 && qs2[x].status != Approved
    {
      AddedItem(qs, id, interest, level, gameMode, number, questions, now, x);
    }
    UnapprovedAdditions(qs, qs2, NewIds(id, |questions|), p);
  }

  lemma GenerateKeepsBatchCounters(s: Store, interest: string, level: string, gameMode: string, questionsPerBatch: Option<int>,
                                   generated: Result<seq<Question>, string>, now: Timestamp, commitOk: bool, deleteOk: bool)
    requires SuccessfulRun(s, interest, level, gameMode, generated, commitOk)
    requires NoUnderscore(interest) && NoUnderscore(level) && NoUnderscore(gameMode)
    requires BatchCountersMatch(s) && ParentsExist(s) && IdsWellFormed(s)
    ensures BatchCountersMatch(Generate(s, interest, level, gameMode, questionsPerBatch, generated, now, commitOk, deleteOk).store)
    ensures PoolTotalsMatch(s) ==> PoolTotalsMatch(Generate(s, interest, level, gameMode, questionsPerBatch, generated, now, commitOk, deleteOk).store)
  {
    var s2 := Generate(s, interest, level, gameMode, questionsPerBatch, generated, now, commitOk, deleteOk).store;
    var number := NextBatchNumber(s, interest, level, gameMode);
    var id := NextBatchId(s, interest, level, gameMode);
    var qs := generated.value;
    GenerateOkShape(s, interest, level, gameMode, questionsPerBatch, generated, now, commitOk, deleteOk);
    NextBatchIdFresh(s, interest, level, gameMode);
    NewItemIdsFresh(s, id, |qs|);
    forall b | b in s2.batches
      ensures BatchMatches(s2, b)
    {
      if b == id {
        NewBatchItemSets(s.questions, id, interest, level, gameMode, number, qs, now);
        NewIdsCount(id, |qs|);
      } else {
        assert BatchMatches(s, b);
        OtherBatchItemSets(s.questions, id, interest, level, gameMode, number, qs, now, b);
      }
    }
    forall p | p in s2.pools
      ensures ApprovedInPool(s2.questions, p) == ApprovedInPool(s.questions, p)
    {
      AddedItemsNotApproved(s.questions, id, interest, level, gameMode, number, qs, now, p);
    }
  }

  /** New pending items of a new batch leave every reference resolvable. */
  lemma AddBatchKeepsParents(s: Store, id: string, nb: TemplateBatch, interest: string, level: string, gameMode: string,
                             number: nat, questions: seq<Question>, now: Timestamp)
    requires ParentsExist(s)
    ensures ParentsExist(Store(AddItems(s.questions, id, interest, level, gameMode, number, questions, now), s.batches[id := nb], s.pools))
  {
    var qs2 := AddItems(s.questions, id, interest, level, gameMode, number, questions, now);
    AddItemsShape(s.questions, id, interest, level, gameMode, number, questions, now);
    forall x | x in qs2
      ensures qs2[x].batchId in s.batches[id := nb]
      ensures qs2[x].status == Approved ==> PoolOf(qs2[x]) in s.pools
    {
      if x in NewIds(id, |questions|) {
        AddedItem(s.questions, id, interest, level, gameMode, number, questions, now, x);
      }
    }
  }

  lemma GenerateKeepsParents(s: Store, interest: string, level: string, gameMode: string, questionsPerBatch: Option<int>,
                             generated: Result<seq<Question>, string>, now: Timestamp, commitOk: bool, deleteOk: bool)
    requires SuccessfulRun(s, interest, level, gameMode, generated, commitOk)
    requires ParentsExist(s)
    ensures ParentsExist(Generate(s, interest, level, gameMode, questionsPerBatch, generated, now, commitOk, deleteOk).store)
  {
    var number := NextBatchNumber(s, interest, level, gameMode);
    var id := NextBatchId(s, interest, level, gameMode);
    var requested := if questionsPerBatch.Some? then questionsPerBatch.value else DEFAULT_QUESTIONS_PER_BATCH;
    GenerateOkShape(s, interest, level, gameMode, questionsPerBatch, generated, now, commitOk, deleteOk);
    AddBatchKeepsParents(s, id, NewBatch(id, interest, level, gameMode, number, |generated.value|, requested, now),
                         interest, level, gameMode, number, generated.value, now);
  }

  /** The new batch's key gains exactly the new batch. */
  lemma KeyBatchesGrow(batches: map<string, TemplateBatch>, id: string, nb: TemplateBatch, i: string, l: string, g: string)
    requires id !in batches
    ensures KeyBatches(batches[id := nb], i, l, g) ==
      KeyBatches(batches, i, l, g) + (if nb.interest == i && nb.level == l && nb.gameMode == g then {id} else {})
    ensures |KeyBatches(batches[id := nb], i, l, g)| >= |KeyBatches(batches, i, l, g)|
  {
    var grown := KeyBatches(batches[id := nb], i, l, g);
    assert grown == KeyBatches(batches, i, l, g) + (if nb.interest == i && nb.level == l && nb.gameMode == g then {id} else {});
    if nb.interest == i && nb.level == l && nb.gameMode == g {
      CardinalityOfDisjointUnion(KeyBatches(batches, i, l, g), {id});
    }
  }

  /** Adding the key's next batch under its own id keeps the batch ids well formed. */
  lemma AddBatchKeepsIds(batches: map<string, TemplateBatch>, id: string, nb: TemplateBatch)
    requires BatchIdsOk(batches) && id !in batches
    requires NoUnderscore(nb.interest) && NoUnderscore(nb.level) && NoUnderscore(nb.gameMode)
    requires id == BatchId(nb.interest, nb.level, nb.gameMode, nb.batchNumber)
    requires nb.batchNumber == |KeyBatches(batches, nb.interest, nb.level, nb.gameMode)| + 1
    ensures BatchIdsOk(batches[id := nb])
  {
    var b2 := batches[id := nb];
    forall b | b in b2
      ensures BatchNamed(b, b2[b])
      ensures b2[b].batchNumber <= |KeyBatches(b2, b2[b].interest, b2[b].level, b2[b].gameMode)|
    {
      var r := b2[b];
      KeyBatchesGrow(batches, id, nb, r.interest, r.level, r.gameMode);
      if b == id {
        assert r == nb;
      } else {
        assert r == batches[b];
      }
    }
  }

  /** Adding a batch's items under their own ids keeps the item ids well formed. */
  lemma AddItemsKeepsIds(qs: map<string, TemplateQuestion>, id: string, interest: string, level: string, gameMode: string,
                         number: nat, questions: seq<Question>, now: Timestamp)
    requires ItemIdsOk(qs)
    ensures ItemIdsOk(AddItems(qs, id, interest, level, gameMode, number, questions, now))
  {
    var qs2 := AddItems(qs, id, interest, level, gameMode, number, questions, now);
    AddItemsShape(qs, id, interest, level, gameMode, number, questions, now);
    forall x | x in qs2
      ensures x == ItemId(qs2[x].batchId, qs2[x].questionIndex)
    {
      if x in NewIds(id, |questions|) {
        AddedItem(qs, id, interest, level, gameMode, number, questions, now, x);
      }
    }
  }

  lemma GenerateKeepsIds(s: Store, interest: string, level: string, gameMode: string, questionsPerBatch: Option<int>,
                         generated: Result<seq<Question>, string>, now: Timestamp, commitOk: bool, deleteOk: bool)
    requires SuccessfulRun(s, interest, level, gameMode, generated, commitOk)
    requires NoUnderscore(interest) && NoUnderscore(level) && NoUnderscore(gameMode)
    requires IdsWellFormed(s)
    ensures IdsWellFormed(Generate(s, interest, level, gameMode, questionsPerBatch, generated, now, commitOk, deleteOk).store)
  {
    var number := NextBatchNumber(s, interest, level, gameMode);
    var id := NextBatchId(s, interest, level, gameMode);
    var requested := if questionsPerBatch.Some? then questionsPerBatch.value else DEFAULT_QUESTIONS_PER_BATCH;
    GenerateOkShape(s, interest, level, gameMode, questionsPerBatch, generated, now, commitOk, deleteOk);
    NextBatchIdFresh(s, interest, level, gameMode);
    AddBatchKeepsIds(s.batches, id, NewBatch(id, interest, level, gameMode, number, |generated.value|, requested, now));
    AddItemsKeepsIds(s.questions, id, interest, level, gameMode, number, generated.value, now);
  }

  /** A run that stops before its commit, or whose failed commit is cleaned up, leaves the store as it was. */
  lemma GenerateFailureLeavesStore(s: Store, interest: string, level: string, gameMode: string, questionsPerBatch: Option<int>,
                                   generated: Result<seq<Question>, string>, now: Timestamp, commitOk: bool)
    requires NoUnderscore(interest) && NoUnderscore(level) && NoUnderscore(gameMode)
    requires IdsWellFormed(s)
    requires generated.Ok? ==> |generated.value| <= MAX_BATCH_WRITES
    requires !SuccessfulRun(s, interest, level, gameMode, generated, commitOk)
    ensures Generate(s, interest, level, gameMode, questionsPerBatch, generated, now, commitOk, true).store == s
  {
    if interest != "" && level != "" && gameMode != "" && generated.Ok? && |generated.value| > 0 {
      NextBatchIdFresh(s, interest, level, gameMode);
      var id := NextBatchId(s, interest, level, gameMode);
      var number := NextBatchNumber(s, interest, level, gameMode);
      var requested := if questionsPerBatch.Some? then questionsPerBatch.value else DEFAULT_QUESTIONS_PER_BATCH;
      var nb := NewBatch(id, interest, level, gameMode, number, |generated.value|, requested, now);
      assert s.batches[id := nb] - {id} == s.batches;
    }
  }

  /**
   * A run that writes its batch and items keeps every counter in step with
   * the statuses and keeps every id well formed; a run that fails before
   * writing, or whose failed commit is cleaned up, leaves the store as it was.
   */
  lemma GenerateKeepsCountersMatch(s: Store, interest: string, level: string, gameMode: string, questionsPerBatch: Option<int>,
                                   generated: Result<seq<Question>, string>, now: Timestamp, commitOk: bool)
    requires NoUnderscore(interest) && NoUnderscore(level) && NoUnderscore(gameMode)
    requires CountersMatch(s) && IdsWellFormed(s)
    requires generated.Ok? ==> |generated.value| <= MAX_BATCH_WRITES
    ensures var o := Generate(s, interest, level, gameMode, questionsPerBatch, generated, now, commitOk, true);
      CountersMatch(o.store) && IdsWellFormed(o.store)
  {
    if SuccessfulRun(s, interest, level, gameMode, generated, commitOk) {
      GenerateKeepsBatchCounters(s, interest, level, gameMode, questionsPerBatch, generated, now, commitOk, true);
      GenerateKeepsParents(s, interest, level, gameMode, questionsPerBatch, generated, now, commitOk, true);
      GenerateKeepsIds(s, interest, level, gameMode, questionsPerBatch, generated, now, commitOk, true);
    } else {
      GenerateFailureLeavesStore(s, interest, level, gameMode, questionsPerBatch, generated, now, commitOk);
    }
  }

  /**
   * More than 500 questions: the handler refuses to save them only after it
   * has written the batch record, so a batch that claims `n` pending items
   * is left with none.
   */
  lemma OversizedBatchIsOrphaned(s: Store, interest: string, level: string, gameMode: string, questionsPerBatch: Option<int>,
                                 generated: Result<seq<Question>, string>, now: Timestamp, commitOk: bool, deleteOk: bool)
    requires interest != "" && level != "" && gameMode != ""
    requires NoUnderscore(interest) && NoUnderscore(level) && NoUnderscore(gameMode)
    requires ParentsExist(s) && IdsWellFormed(s)
    requires generated.Ok? && |generated.value| > MAX_BATCH_WRITES
    ensures var o := Generate(s, interest, level, gameMode, questionsPerBatch, generated, now, commitOk, deleteOk);
      var id := NextBatchId(s, interest, level, gameMode);
      && o.result == Err(TooManyQuestions(|generated.value|))
      && id in o.store.batches && o.store.batches[id].pendingCount == |generated.value|
      && ItemsWith(o.store.questions, id, Pending) == {}
  {
    NextBatchIdFresh(s, interest, level, gameMode);
    NewItemIdsFresh(s, NextBatchId(s, interest, level, gameMode), 0);
  }

  /** A failed commit whose cleanup also fails leaves an empty batch behind as well. */
  lemma FailedCleanupIsOrphaned(s: Store, interest: string, level: string, gameMode: string, questionsPerBatch: Option<int>,
                                generated: Result<seq<Question>, string>, now: Timestamp)
    requires interest != "" && level != "" && gameMode != ""
    requires NoUnderscore(interest) && NoUnderscore(level) && NoUnderscore(gameMode)
    requires ParentsExist(s) && IdsWellFormed(s)
    requires generated.Ok? && 0 < |generated.value| <= MAX_BATCH_WRITES
    ensures var o := Generate(s, interest, level, gameMode, questionsPerBatch, generated, now, false, false);
      var id := NextBatchId(s, interest, level, gameMode);
      && o.result == Err(SaveFailed)
      && id in o.store.batches && o.store.batches[id].pendingCount == |generated.value|
      && ItemsWith(o.store.questions, id, Pending) == {}
  {
    NextBatchIdFresh(s, interest, level, gameMode);
    NewItemIdsFresh(s, NextBatchId(s, interest, level, gameMode), 0);
  }
}
