/**
 * The question edit handler: it merges the given content fields into one
 * stored item and stamps the edit time. The answer index is checked against
 * the options only when one edit carries both.
 */
module UpdateQuestion {

  import opened Wrappers
  import opened TemplateTypes
  import opened TemplateStore

  /** The editable content fields; an absent field is left as stored. */
  datatype QuestionUpdate = QuestionUpdate(
    question: Option<string>,
    passage: Option<string>,
    options: Option<seq<string>>,
    correctIndex: Option<int>,
    explanation: Option<string>,
    clue: Option<string>)

  predicate NoFields(u: QuestionUpdate)
  {
    u.question.None? && u.passage.None? && u.options.None? && u.correctIndex.None? && u.explanation.None? && u.clue.None?
  }

  /** The merge of an edit into stored content. */
  function ApplyUpdate(c: Question, u: QuestionUpdate): Question
  {
    Question(
      if u.passage.Some? then u.passage else c.passage,
      if u.question.Some? then u.question.value else c.question,
      if u.options.Some? then u.options.value else c.options,
      if u.correctIndex.Some? then u.correctIndex.value else c.correctIndex,
      if u.explanation.Some? then u.explanation.value else c.explanation,
      if u.clue.Some? then u.clue.value else c.clue)
  }

  /** The bounds check, made only when the edit carries both an index and options. */
  predicate IndexRejected(u: QuestionUpdate)
  {
    u.correctIndex.Some? && u.options.Some? && (u.correctIndex.value < 0 || u.correctIndex.value >= |u.options.value|)
  }

  /** The handler as one transition. */
  function Update(s: Store, questionId: string, updates: Option<QuestionUpdate>, now: Timestamp, commitOk: bool): (o: Outcome<()>)
    ensures o.result.Err? ==> o.store == s
    ensures questionId == "" ==> o.result == Err(MissingQuestionId)
    ensures questionId != "" && (updates.None? || NoFields(updates.value)) ==> o.result == Err(NoUpdates)
    ensures questionId != "" && updates.Some? && !NoFields(updates.value) && questionId !in s.questions ==>
      o.result == Err(QuestionNotFound)
    ensures o.result.Ok? ==> questionId in s.questions && updates.Some? && !IndexRejected(updates.value)
  {
    if questionId == "" then Outcome(Err(MissingQuestionId), s)
    else if updates.None? || NoFields(updates.value) then Outcome(Err(NoUpdates), s)
    else if questionId !in s.questions then Outcome(Err(QuestionNotFound), s)
    else
      var u := updates.value;
      if IndexRejected(u) then Outcome(Err(CorrectIndexOutOfBounds), s)
      else if !commitOk then Outcome(Err(CommitFailed), s)
      else
        var q := s.questions[questionId];
        Outcome(Ok(()), s.(questions := s.questions[questionId := q.(content := ApplyUpdate(q.content, u), updatedAt := Some(now))]))
  }

  /**
   * On success each given field replaces the stored one, each absent field
   * is kept, the edit time is stamped, and nothing else in the store changes.
   */
  lemma UpdatedFields(s: Store, questionId: string, u: QuestionUpdate, now: Timestamp, commitOk: bool)
    requires Update(s, questionId, Some(u), now, commitOk).result.Ok?
    ensures var s2 := Update(s, questionId, Some(u), now, commitOk).store;
      var q, q2 := s.questions[questionId], s2.questions[questionId];
      && s2.batches == s.batches && s2.pools == s.pools
      && s2.questions.Keys == s.questions.Keys
      && (forall x :: x in s.questions && x != questionId ==> s2.questions[x] == s.questions[x])
      && q2.updatedAt == Some(now)
      && q2 == q.(content := q2.content, updatedAt := q2.updatedAt)
      && (u.question.Some? ==> q2.content.question == u.question.value) && (u.question.None? ==> q2.content.question == q.content.question)
      && (u.passage.Some? ==> q2.content.passage == u.passage) && (u.passage.None? ==> q2.content.passage == q.content.passage)
      && (u.options.Some? ==> q2.content.options == u.options.value) && (u.options.None? ==> q2.content.options == q.content.options)
      && (u.correctIndex.Some? ==> q2.content.correctIndex == u.correctIndex.value)
      && (u.correctIndex.None? ==> q2.content.correctIndex == q.content.correctIndex)
      && (u.explanation.Some? ==> q2.content.explanation == u.explanation.value)
      && (u.explanation.None? ==> q2.content.explanation == q.content.explanation)
      && (u.clue.Some? ==> q2.content.clue == u.clue.value) && (u.clue.None? ==> q2.content.clue == q.content.clue)
  {
  }

  /** An edit touches only content, so every counter stays in step with the statuses. */
  lemma UpdateKeepsCountersMatch(s: Store, questionId: string, updates: Option<QuestionUpdate>, now: Timestamp, commitOk: bool)
    requires CountersMatch(s)
    ensures CountersMatch(Update(s, questionId, updates, now, commitOk).store)
  {
    var o := Update(s, questionId, updates, now, commitOk);
    if o.result.Ok? {
      var q := s.questions[questionId];
      var q2 := q.(content := ApplyUpdate(q.content, updates.value), updatedAt := Some(now));
      assert o.store == s.(questions := s.questions[questionId := q2]);
      ContentEditKeepsStatuses(s.questions, questionId, q2);
      CountersSeeOnlyStatuses(s, s.questions[questionId := q2]);
    }
  }

  lemma ContentEditKeepsStatuses(qs: map<string, TemplateQuestion>, id: string, q2: TemplateQuestion)
    requires id in qs && q2.batchId == qs[id].batchId && q2.status == qs[id].status && PoolOf(q2) == PoolOf(qs[id])
    ensures SameStatuses(qs, qs[id := q2])
  {
  }

  /** The answer index points into the options. */
  predicate IndexInRange(c: Question)
  {
    0 <= c.correctIndex < |c.options|
  }

  /** An edit that sets the index and the options together, or neither, keeps the index in range. */
  lemma PairedEditKeepsIndexInRange(s: Store, questionId: string, u: QuestionUpdate, now: Timestamp, commitOk: bool)
    requires questionId in s.questions && IndexInRange(s.questions[questionId].content)
    requires u.options.Some? <==> u.correctIndex.Some?
    requires Update(s, questionId, Some(u), now, commitOk).result.Ok?
    ensures IndexInRange(Update(s, questionId, Some(u), now, commitOk).store.questions[questionId].content)
  {
  }

  /** An index sent without options is not checked, so it can point past the stored options. */
  lemma IndexOnlyEditIsUnchecked(s: Store, questionId: string, now: Timestamp)
    requires questionId != "" && questionId in s.questions
    ensures var u := QuestionUpdate(None, None, None, Some(|s.questions[questionId].content.options|), None, None);
      var o := Update(s, questionId, Some(u), now, true);
      o.result.Ok? && !IndexInRange(o.store.questions[questionId].content)
  {
  }

  /** Options sent without an index are not checked either, so they can shrink below the stored index. */
  lemma OptionsOnlyEditIsUnchecked(s: Store, questionId: string, now: Timestamp)
    requires questionId != "" && questionId in s.questions
    ensures var u := QuestionUpdate(None, None, Some([]), None, None, None);
      var o := Update(s, questionId, Some(u), now, true);
      o.result.Ok? && !IndexInRange(o.store.questions[questionId].content)
  {
  }
}
