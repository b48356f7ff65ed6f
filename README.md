# English-quiz admin backend, modelled in Dafny

This project models the server-side core of an admin dashboard for an
English-learning quiz application. The system has four parts.

- **Generation.** A Gemini text-completion model writes personalised quizzes.
  The surrounding code retries failed calls with exponential backoff. It
  strips code fences, repairs common JSON slips and extracts the question
  array. It type-checks and capitalises every question and insists on exactly
  15 questions per quiz. A windowed task runner works through a fixed plan of
  30 quiz cells: five game modes times six CEFR levels.
- **Template moderation.** Generated template questions are stored in batches
  per (interest, level, game mode). Admins approve, reject, unapprove and edit
  them. Each batch carries approved, pending and rejected counters and a status
  derived from them. Approved questions feed a per-key pool whose total the
  dashboard shows.
- **Sampling and runs.** A sampler draws a shuffled quiz from the approved
  questions of three interests. Generation runs page through the 30-cell plan
  five cells per request, and quiz sets move between pending, regenerating and
  approved.
- **Dashboard aggregation.** A per-user count fold and a user list are built
  from the quiz table. User status is classified, and quiz sets are numbered
  and ordered. Query constraints and moderation stats are derived for the
  template views.

Each store (template questions, batches, pools, users, generation runs, quiz
sets) is a map from document id to record. There are two layers for each
handler:

- **A function** computes the handler's whole outcome: the response plus the
  new store, or an error with the store unchanged. A batched commit applies
  all of its writes or none of them. Lemmas about these functions state what
  the handlers promise. They cover:
  - counter sums and status rules;
  - when the counters still match the item statuses, and the inputs that
    break them;
  - the approve/unapprove round trip;
  - the windows partitioning the plan;
  - the sampler's permutation and bounds.
- **A class** (`TemplateDatabase.TemplateDb`, `QuizDatabase.QuizDb`) holds
  the tables as fields. Its methods carry out the handlers step by step, with
  the loops the source has. Each is proved to leave exactly the state that
  handler's function computes.

The model follows the code as written, including its quirks:

- approving adds the whole request size to every pool it touches;
- approve and reject do not check an item's current status;
- generating an oversized batch leaves its batch record orphaned;
- the batch route's failure path never marks the run failed;
- the answer index of an edit is checked only when the options arrive with it.

Lemmas named `…Breaks…`, `…Overcounts`, `…Orphaned` and `…Unchecked` exhibit
these quirks on every input of the described shape.

Time is a `now` parameter (or a `clock` function for the plan runner). The
text-completion model is a parameter `oracle`, and `JSON.parse` a partial
function `parse`. Randomness is a nondeterministic choice of swap indices.
Whether a store commit succeeds is a boolean parameter.

## Model

| member | source | states |
|---|---|---|
| Constants.TablesAreDistinct | lib/constants.ts:10-43 | the interest, game-mode and level tables hold 8, 5 and 6 entries, each table without repeats |
| Constants.DifficultyByLevelShape | lib/constants.ts:48-55 | the level-to-difficulty table is defined on exactly the six levels and sends A1/A2 to easy, B1/B2 to medium and C1/C2 to hard |
| TemplateTypes.QuestionStatusName | types/quiz-templates.ts:4 | the four question statuses are stored under four different tags, each tag naming exactly one status |
| TemplateTypes.BatchStatusName | types/quiz-templates.ts:5 | the four batch statuses, `failed` included, are stored under four different tags |
| TemplateTypes.BatchIdExtendsPoolId | types/quiz-templates.ts:41-66 | a batch id is its pool id followed by `_batch` and the batch number, so the pool id is a prefix of every batch id of that key |
| TemplateTypes.BatchIdInjective | app/api/quiz-templates/generate-batch/route.ts:54 | two batches of one key with the same id have the same batch number |
| TemplateTypes.BatchIdDeterminesKey | app/api/quiz-templates/generate-batch/route.ts:54 | when interest, level and mode contain no underscore, a batch id determines all four of its parts |
| TemplateTypes.ItemIdInjective | app/api/quiz-templates/generate-batch/route.ts:112 | an item id `batchId_q{j}` determines both its batch id and its index |
| Generation.RetryCalls | lib/geminiService.ts:24-38 | the number of calls made from a given attempt lies between one and the remaining budget, and the last call succeeded unless the whole budget was used |
| Generation.RetryCallsFailBeforeLast | lib/geminiService.ts:24-32 | every call before the last one failed |
| Generation.WithRetry | lib/geminiService.ts:17-41 | the loop makes between 1 and maxRetries+1 calls, returns the outcome of the last call, every earlier call failed, a failure is returned only after the whole budget, and after failed attempt k it waits baseDelay·2^k |
| Generation.RetryFailsOnlyWhenAllFail | lib/geminiService.ts:17-41 | the retry fails if and only if all maxRetries+1 attempts fail, and a success is the outcome of one of the attempts |
| Generation.PromptNamesTargetAndInterests | lib/geminiService.ts:144-156 | every prompt carries the target line (level, level guidelines, difficulty) followed by the comma-joined interests, right after the opening sentence and the JSON rules |
| Generation.GenerateQuiz | lib/geminiService.ts:346-367 | a successful quiz has exactly 15 questions |
| Generation.GenerateQuizAttempts | lib/geminiService.ts:356-367 | generation makes at most 4 completion calls, and fails if and only if each of the 4 attempts fails validation or the count check |
| Generation.CreatePersonalizedQuizClient | lib/geminiService.ts:416-441 | an unknown game mode is refused with the unsupported-mode error; a success is for a known mode, has 15 questions and the id `userId_time_gameMode` |
| Generation.FirstFailure | lib/geminiService.ts:400-408 | finds the first rejected result in index order and is absent exactly when every result was fulfilled |
| Generation.ProgressLog | lib/geminiService.ts:401-408 | the progress calls are (1,n), (2,n), … in order |
| Generation.WindowStart | lib/geminiService.ts:394-395 | each task index lies in the window that starts at the multiple of the limit below it |
| Generation.WindowStartOf | lib/geminiService.ts:394-395 | every index of a window starting at i is started by that window |
| Generation.RunWithConcurrencyLimit | lib/geminiService.ts:386-414 | with no rejection every result is kept at its task's index and progress runs to (n,n); at the first rejection that error is returned, progress stops just before it, and no window after the failing one is started |
| Generation.FirstFailureIs | lib/geminiService.ts:400-408 | a rejected result preceded only by fulfilled ones is the first failure |
| Generation.PlanLayout | lib/geminiService.ts:448-479 | the plan has 30 entries and entry 6m+l has the m-th mode, the l-th level and that level's difficulty |
| Generation.PlanRow | lib/geminiService.ts:448-479 | the six entries of one mode list the six levels in order with easy, easy, medium, medium, hard, hard |
| Generation.PlanCellAt | lib/geminiService.ts:448-479 | one cell of the plan, as in the plan layout |
| Generation.PlanOutcomes | lib/geminiService.ts:481-495 | there is one task per plan entry, and a fulfilled task carries its entry's metadata and 15 questions |
| Generation.GenerateAllQuizzes | lib/geminiService.ts:443-499 | a success has 30 quizzes in plan order, each with its entry's metadata and 15 questions, with progress reported 30 times; a failure stops progress before 30 with limit-10 windows started |
| Sanitizer.FirstFence | lib/geminiService.ts:44 | finds the first triple backquote at or after a position, or reports there is none |
| Sanitizer.GroupStart | lib/geminiService.ts:44 | the captured group starts after the opening fence, the optional `json` tag and the whitespace run |
| Sanitizer.GroupEnd | lib/geminiService.ts:44 | the captured group ends before the whitespace run that precedes the closing fence |
| Sanitizer.StripFencesNoFence | lib/geminiService.ts:44 | text without fences is left unchanged |
| Sanitizer.CleanFenced | lib/geminiService.ts:43-45 | a clean JSON body wrapped in a json code fence comes back out of the fence removal and the trim exactly |
| Sanitizer.QuoteNormalisationIsIdentity | lib/geminiService.ts:51 | the two quote replacements, whose classes hold straight quotes only, leave every string unchanged |
| Sanitizer.ReplaceChars | lib/geminiService.ts:51 | a character-class replace keeps the length and changes exactly the characters in the class |
| Sanitizer.DropBeforeComma | lib/geminiService.ts:50 | the trailing-comma rewrite of a string works independently on the parts before and from a comma |
| Sanitizer.DropAtComma | lib/geminiService.ts:50 | a comma, a whitespace run and a closer become just the closer |
| Sanitizer.TrailingCommaRemoved | lib/geminiService.ts:50 | inside any text, a comma followed by a whitespace run and `}` or `]` is replaced by the closer alone, and the text around it is rewritten on its own |
| Sanitizer.MergeBeforeBracket | lib/geminiService.ts:49 | the adjacent-array rewrite of a string works independently on the parts before and from a `]` |
| Sanitizer.MergeAtBracket | lib/geminiService.ts:49 | `]`, a whitespace run and `[` become one comma |
| Sanitizer.AdjacentArraysMerged | lib/geminiService.ts:49 | inside any text, `]` followed by a whitespace run and `[` is replaced by a comma, and the text around it is rewritten on its own |
| Sanitizer.FirstIndexOf | lib/geminiService.ts:75 | finds the first occurrence of a character, or reports that there is none |
| Sanitizer.LastIndexOf | lib/geminiService.ts:75 | finds the last occurrence of a character, or reports that there is none |
| Sanitizer.ArraySpan | lib/geminiService.ts:75-76 | the greedy match is the text from the first `[` to the last `]`, and it is absent exactly when one of them is missing or the last `]` comes before the first `[` |
| Sanitizer.ParseWithRecovery | lib/geminiService.ts:70-86 | a direct parse wins; otherwise a missing span gives the invalid-JSON error, and a span whose trailing commas are removed either parses or gives the unrecoverable-JSON error |
| Sanitizer.ExtractQuestions | lib/geminiService.ts:59-64 | a bare array is returned first, else an array under `quiz`, else an array under `questions`, else the empty list, so the result is always an array |
| Sanitizer.ExtractUnwraps | lib/geminiService.ts:59-64 | extraction undoes each of the three wrappings: a bare array, `{quiz: [...]}` and `{questions: [...]}`; `quiz` wins when both keys hold arrays, and null, a string or an empty object yield the empty list |
| Sanitizer.CapitalizeFirstLetter | lib/geminiService.ts:55-57 | the empty string is unchanged, the length is kept, the first character is upper-cased and the rest is unchanged |
| Sanitizer.CapitalizeIdempotent | lib/geminiService.ts:55-57 | capitalising twice gives the same as capitalising once |
| Sanitizer.FormatOptions | lib/geminiService.ts:115 | the options are capitalised one by one; a falsy non-string option is kept as it is, and the list fails exactly when some option is a truthy non-string, which has no `charAt` |
| Sanitizer.FormatQuestion | lib/geminiService.ts:95-118 | a null item is a type error and an ill-typed one the invalid-format error; a formatted item keeps every other field, joins an array-valued question, capitalises question, options, explanation and clue, copies correctIndex unchecked, and its options are exactly the capitalised input options; a well-typed item fails with the type error exactly when an option cannot be capitalised |
| Sanitizer.FormatAll | lib/geminiService.ts:95-119 | the mapping succeeds if and only if every item formats, keeps the length and order, and otherwise fails with the error of the first offending item, every earlier item formatting |
| Sanitizer.ValidateKeepsEveryItem | lib/geminiService.ts:66-119 | once parsing succeeds, validation drops no item: it succeeds if and only if every extracted item formats, and then has as many questions as were extracted |
| Sanitizer.FencedAnswerValidatesLikeBare | lib/geminiService.ts:43-119 | an answer wrapped in a json code fence validates exactly like the bare answer |
| Sanitizer.QuizAttempt | lib/geminiService.ts:357-366 | an accepted attempt has exactly 15 questions; an upstream failure and a validation error are passed on; a validated answer of 15 questions is accepted as validated, and one of another size is refused with the invalid-count error |
| TemplateStore.BatchCountIsCardinality | app/api/quiz-templates/approve-questions/route.ts:68-69 | for distinct ids, the per-batch tally equals the number of request items that belong to that batch |
| TemplateStore.Shift | app/api/quiz-templates/approve-questions/route.ts:101-108 | one batch's counter update keeps the counter sum and the total and stamps lastReviewedAt; approve moves c items from pending to approved, reject from pending to rejected, unapprove from approved to pending |
| TemplateStore.AdjustBatches | app/api/quiz-templates/approve-questions/route.ts:100-110 | the batched counter updates commit only when every counted batch exists (an update of a missing document fails the commit); they shift exactly the counted batches and leave the others as they were |
| TemplateStore.StatusRulesCompared | app/api/quiz-templates/approve-questions/route.ts:118-123 | none of the three status rules yields `failed`; approve and unapprove disagree only on an empty batch; the reject rule says all_pending only when nothing is approved or pending; reject and approve disagree exactly when nothing is approved but some items are still pending |
| TemplateStore.Restatus | app/api/quiz-templates/approve-questions/route.ts:112-129 | the recompute pass rewrites the status of exactly the touched batches with that handler's rule, and changes nothing else |
| TemplateStore.ReviewedBatches | app/api/quiz-templates/approve-questions/route.ts:100-129 | after the counter commit and the status pass, every batch keeps its total, and its counters have moved by its tally as that action prescribes; a touched batch takes its status from the action's rule on its new counters, and an untouched batch is left exactly as it was |
| TemplateStore.CountersSeeOnlyStatuses | app/api/quiz-templates/update-question/route.ts:76-80 | an edit that keeps every item's batch, status and pool keeps the counters-match invariant |
| TemplateStore.ParentsKeptWithoutApprovals | app/api/quiz-templates/reject-questions/route.ts:49-71 | a change that approves no item and removes no batch or pool keeps every reference resolvable |
| ApproveQuestions.PoolGroupsShape | app/api/quiz-templates/approve-questions/route.ts:49-70 | the grouping has one entry per pool touched by the request, holding the batch ids of that pool's request items |
| ApproveQuestions.Approve | app/api/quiz-templates/approve-questions/route.ts:19-136 | any error leaves the store unchanged; a missing or empty id list is refused; a success reports the request size |
| ApproveQuestions.ApprovedItems | app/api/quiz-templates/approve-questions/route.ts:76-82 | every requested item becomes approved with approvedAt set, approvedBy changes only when a non-empty adminId is given, and no other item changes |
| ApproveQuestions.ApproveKeepsCounterSum | app/api/quiz-templates/approve-questions/route.ts:101-108 | every batch keeps its total and its approved+pending+rejected sum, whatever the request |
| ApproveQuestions.ApprovePoolTotals | app/api/quiz-templates/approve-questions/route.ts:85-98 | each touched pool's total grows by the size of the whole request and its source batches gain, as a set, that pool's batch ids; untouched pools stay as they were |
| ApproveQuestions.ApproveItemSets | app/api/quiz-templates/approve-questions/route.ts:76-82 | for pending requested items, each batch's approved set gains exactly its requested items and its pending set loses them |
| ApproveQuestions.ApprovePoolSets | app/api/quiz-templates/approve-questions/route.ts:76-82 | for pending requested items, each pool's approved set gains exactly the requested items of that pool |
| ApproveQuestions.ApproveOkShape | app/api/quiz-templates/approve-questions/route.ts:34-110 | approval succeeds if and only if the list is non-empty, every item and every batch it names exist and the commit succeeds; then the new items, pools and counters are exactly the batched writes, and each touched batch's status is the approve rule on its new counters while untouched batches keep theirs |
| ApproveQuestions.ApproveBatchStaysMatched | app/api/quiz-templates/approve-questions/route.ts:101-108 | for distinct pending ids, a batch whose counters matched its item statuses still matches after the update |
| ApproveQuestions.ApprovePoolStaysMatched | app/api/quiz-templates/approve-questions/route.ts:85-98 | for distinct pending ids in one pool, a pool whose total matched its approved items still matches |
| ApproveQuestions.MergePoolsAt | app/api/quiz-templates/approve-questions/route.ts:85-98 | the merge adds the request size to each grouped pool, creating it at 0 if needed, and leaves other pools untouched |
| ApproveQuestions.ApproveKeepsBatchCounters | app/api/quiz-templates/approve-questions/route.ts:53-129 | for distinct pending ids in one pool, approval keeps every batch's counters equal to its item statuses |
| ApproveQuestions.ApproveKeepsPoolTotals | app/api/quiz-templates/approve-questions/route.ts:85-98 | for distinct pending ids in one pool, approval keeps every pool's total equal to its approved items |
| ApproveQuestions.ApproveKeepsParents | app/api/quiz-templates/approve-questions/route.ts:76-98 | approval keeps every item's batch present, and every approved item's pool is written |
| ApproveQuestions.ApproveKeepsCountersMatch | app/api/quiz-templates/approve-questions/route.ts:19-136 | for distinct pending ids in one pool, approval preserves the whole counters-match invariant |
| ApproveQuestions.ReapprovedItemSet | app/api/quiz-templates/approve-questions/route.ts:37-47 | re-approving an approved item leaves its batch's approved set unchanged |
| ApproveQuestions.ReapprovalBreaksCounters | app/api/quiz-templates/approve-questions/route.ts:37-108 | re-approving an approved item succeeds and counts it again, so its batch reports one approval more than it holds |
| ApproveQuestions.TwoPoolItemSets | app/api/quiz-templates/approve-questions/route.ts:76-82 | approving one pending item of each of two pools adds exactly one approved item to the first pool |
| ApproveQuestions.TwoPoolApprovalOvercounts | app/api/quiz-templates/approve-questions/route.ts:94 | approving items of two pools in one request adds the whole request size to each pool, so the first pool reports one more than it holds |
| RejectQuestions.Reject | app/api/quiz-templates/reject-questions/route.ts:19-97 | any error leaves the store unchanged; a missing or empty id list is refused; a success reports the request size; no pool is ever written |
| RejectQuestions.RejectOkShape | app/api/quiz-templates/reject-questions/route.ts:34-71 | rejection succeeds if and only if the list is non-empty, every item and every batch it names exist and the commit succeeds; then each batch's rejected count rises and its pending count falls by its tally, approved and total unchanged; each touched batch's status is the reject rule on its new counters while untouched batches keep theirs |
| RejectQuestions.RejectedItems | app/api/quiz-templates/reject-questions/route.ts:53-59 | every requested item becomes rejected with rejectedAt set, rejectionReason changes only for a non-empty reason, and no other item changes |
| RejectQuestions.RejectKeepsCounterSum | app/api/quiz-templates/reject-questions/route.ts:62-69 | every batch keeps its total and its approved+pending+rejected sum, whatever the request |
| RejectQuestions.RejectItemSets | app/api/quiz-templates/reject-questions/route.ts:53-59 | for pending requested items, each batch's rejected set gains exactly its requested items, its pending set loses them, and its approved set is unchanged |
| RejectQuestions.RejectBatchStaysMatched | app/api/quiz-templates/reject-questions/route.ts:62-69 | for distinct pending ids, a batch whose counters matched its item statuses still matches after the update |
| RejectQuestions.RejectKeepsApprovedSets | app/api/quiz-templates/reject-questions/route.ts:49-71 | rejecting pending items leaves every pool's approved set unchanged |
| RejectQuestions.RejectKeepsBatchCounters | app/api/quiz-templates/reject-questions/route.ts:43-90 | for distinct pending ids, rejection keeps every batch's counters equal to its item statuses |
| RejectQuestions.RejectKeepsPoolTotals | app/api/quiz-templates/reject-questions/route.ts:49-71 | for pending ids, rejection keeps every pool total matched and every reference resolvable |
| RejectQuestions.RejectApprovesNothing | app/api/quiz-templates/reject-questions/route.ts:53-59 | rejection approves no item and keeps every item's batch and pool |
| RejectQuestions.RejectKeepsCountersMatch | app/api/quiz-templates/reject-questions/route.ts:19-97 | for distinct pending ids, rejection preserves the whole counters-match invariant |
| RejectQuestions.RejectedApprovedItemSet | app/api/quiz-templates/reject-questions/route.ts:53-59 | rejecting an approved item removes it from its batch's approved set |
| RejectQuestions.RejectingApprovedBreaksCounters | app/api/quiz-templates/reject-questions/route.ts:49-71 | rejecting an approved item succeeds without any status check and leaves approvedCount as it was, so the batch reports one approval more than it holds |
| UnapproveQuestions.ApprovedFilter | app/api/quiz-templates/unapprove-questions/route.ts:47-48 | the filter keeps exactly the requested ids whose item exists and is approved, in order, and is never longer than the request |
| UnapproveQuestions.ApprovedFilterDistinct | app/api/quiz-templates/unapprove-questions/route.ts:48 | filtering a list without repeats gives a list without repeats |
| UnapproveQuestions.ApprovedFilterKeepsAll | app/api/quiz-templates/unapprove-questions/route.ts:48 | when every requested item is approved, the filter keeps the whole list |
| UnapproveQuestions.Unapprove | app/api/quiz-templates/unapprove-questions/route.ts:18-130 | any error leaves the store unchanged; a missing or empty list is refused; the no-approved-questions error happens exactly when none of the ids is approved; a success reports how many approved items were found |
| UnapproveQuestions.UnapproveOkShape | app/api/quiz-templates/unapprove-questions/route.ts:57-104 | unapproval succeeds if and only if some id is approved, every touched pool and batch exists and the commit succeeds; then only the approved items change, each touched pool loses the number of approved items, and each batch moves its tally from approved to pending; each touched batch's status is the unapprove rule on its new counters while untouched batches keep theirs |
| UnapproveQuestions.UnapprovedItems | app/api/quiz-templates/unapprove-questions/route.ts:76-83 | each requested approved item becomes pending with approvedAt and approvedBy removed, and every other item, requested or not, is unchanged |
| UnapproveQuestions.UnapproveItemSets | app/api/quiz-templates/unapprove-questions/route.ts:76-83 | each batch's pending set gains exactly its unapproved items and its approved set loses them |
| UnapproveQuestions.UnapproveBatchStaysMatched | app/api/quiz-templates/unapprove-questions/route.ts:94-102 | for distinct approved items, a batch whose counters matched its item statuses still matches after the update |
| UnapproveQuestions.UnapprovePoolSets | app/api/quiz-templates/unapprove-questions/route.ts:76-83 | each pool's approved set loses exactly the unapproved items of that pool |
| UnapproveQuestions.UnapprovePoolStaysMatched | app/api/quiz-templates/unapprove-questions/route.ts:85-92 | for distinct approved items in one pool, a pool whose total matched its approved items still matches after the decrement |
| UnapproveQuestions.WellFormedApprovedList | app/api/quiz-templates/unapprove-questions/route.ts:48 | for a request without repeats whose approved items share a pool, the filtered list has no repeats and lies in that pool |
| UnapproveQuestions.UnapproveKeepsBatchCounters | app/api/quiz-templates/unapprove-questions/route.ts:57-123 | for such a request, unapproval keeps every batch's counters equal to its item statuses |
| UnapproveQuestions.UnapproveKeepsPoolTotals | app/api/quiz-templates/unapprove-questions/route.ts:85-92 | for such a request, unapproval keeps every pool's total equal to its approved items |
| UnapproveQuestions.UnapproveKeepsParents | app/api/quiz-templates/unapprove-questions/route.ts:76-104 | unapproval keeps every reference resolvable |
| UnapproveQuestions.UnapproveApprovesNothing | app/api/quiz-templates/unapprove-questions/route.ts:76-83 | unapproval approves no item and keeps every item's batch and pool |
| UnapproveQuestions.UnapproveKeepsCountersMatch | app/api/quiz-templates/unapprove-questions/route.ts:18-130 | for such a request, unapproval preserves the whole counters-match invariant |
| UnapproveQuestions.ApproveThenUnapproveItems | app/api/quiz-templates/unapprove-questions/route.ts:76-83 | unapproving freshly approved, previously unstamped items gives back the original item table |
| UnapproveQuestions.RoundTripItems | app/api/quiz-templates/approve-questions/route.ts:76-82 | approve then unapprove on the same distinct pending ids of one pool both succeed with the request size and restore the item table |
| UnapproveQuestions.RoundTripBatches | app/api/quiz-templates/unapprove-questions/route.ts:94-102 | the round trip restores every batch's counters and total |
| UnapproveQuestions.CountersRoundTrip | app/api/quiz-templates/unapprove-questions/route.ts:94-102 | moving the same tallies from pending to approved and back restores every counter |
| UnapproveQuestions.RoundTripPools | app/api/quiz-templates/unapprove-questions/route.ts:85-92 | the round trip restores every existing pool's total, and a pool created by the approval is left with total 0 |
| UnapproveQuestions.PoolsRoundTrip | app/api/quiz-templates/unapprove-questions/route.ts:85-92 | adding n to the touched pools and then taking n away restores the totals |
| UnapproveQuestions.ApproveThenUnapprove | app/api/quiz-templates/approve-questions/route.ts:76-108 | approve then unapprove restores item statuses, batch counters and pool totals (source batches are not restored) |
| GenerateBatch.DifficultyFromLevel | app/api/quiz-templates/generate-batch/route.ts:24-28 | agrees with the level-to-difficulty table on the six levels and answers hard for any other level |
| GenerateBatch.NewIdIndex | app/api/quiz-templates/generate-batch/route.ts:110-112 | every id of a new batch's items is `batchId_q{j}` for some j below the question count |
| GenerateBatch.NewIdsContain | app/api/quiz-templates/generate-batch/route.ts:110-112 | each index below the question count yields one of the new item ids |
| GenerateBatch.NewIdsCount | app/api/quiz-templates/generate-batch/route.ts:110-112 | n questions yield n different item ids |
| GenerateBatch.AddItemsShape | app/api/quiz-templates/generate-batch/route.ts:110-139 | the item writes add exactly the new ids, item j being question j stored as pending with questionIndex j, and leave every other item as it was |
| GenerateBatch.ItemIdsDiffer | app/api/quiz-templates/generate-batch/route.ts:112 | two different indexes give two different item ids |
| GenerateBatch.Generate | app/api/quiz-templates/generate-batch/route.ts:30-185 | a missing interest, level or mode is refused with no write; a generator failure writes nothing; zero questions give an error and no write; a success had between 1 and 500 questions and reports the next batch id and the question count |
| GenerateBatch.NextBatchIdFresh | app/api/quiz-templates/generate-batch/route.ts:46-54 | when stored batch ids follow the naming scheme, the next id (existing batches of the key plus one) is not yet taken |
| GenerateBatch.NewItemIdsFresh | app/api/quiz-templates/generate-batch/route.ts:110-113 | the item ids of a fresh batch are not yet taken, and no stored item belongs to it |
| GenerateBatch.GenerateOkShape | app/api/quiz-templates/generate-batch/route.ts:81-144 | a successful run writes the new batch (total = pending = the actual count, approved = rejected = 0, all_pending, requested defaulting to 50) and the new items, and leaves the pools alone |
| GenerateBatch.NewBatchItemSets | app/api/quiz-templates/generate-batch/route.ts:110-139 | the fresh batch holds exactly its new items, all pending, none approved or rejected |
| GenerateBatch.OtherBatchItemSets | app/api/quiz-templates/generate-batch/route.ts:110-139 | the item sets of every other batch are unchanged |
| GenerateBatch.AddedItemsNotApproved | app/api/quiz-templates/generate-batch/route.ts:134 | the new items add nothing to any pool's approved set |
| GenerateBatch.GenerateKeepsBatchCounters | app/api/quiz-templates/generate-batch/route.ts:82-139 | a successful run keeps every batch's counters equal to its item statuses, the new one included, and keeps pool totals matched |
| GenerateBatch.AddBatchKeepsParents | app/api/quiz-templates/generate-batch/route.ts:82-139 | adding a batch and its pending items keeps every reference resolvable |
| GenerateBatch.GenerateKeepsParents | app/api/quiz-templates/generate-batch/route.ts:82-139 | a successful run keeps every reference resolvable |
| GenerateBatch.KeyBatchesGrow | app/api/quiz-templates/generate-batch/route.ts:46-53 | adding a batch adds it to its key's batch set and never shrinks any key's set |
| GenerateBatch.AddBatchKeepsIds | app/api/quiz-templates/generate-batch/route.ts:53-54 | a batch named by the scheme with the next number keeps every stored batch id well-formed |
| GenerateBatch.AddItemsKeepsIds | app/api/quiz-templates/generate-batch/route.ts:112 | the new items are named `batchId_q{j}` after their own batch and index |
| GenerateBatch.GenerateKeepsIds | app/api/quiz-templates/generate-batch/route.ts:53-112 | a successful run keeps batch and item ids well-formed |
| GenerateBatch.GenerateFailureLeavesStore | app/api/quiz-templates/generate-batch/route.ts:143-162 | with up to 500 questions, a run that does not succeed ends with the store as it was, the batch record being deleted after a failed item commit |
| GenerateBatch.GenerateKeepsCountersMatch | app/api/quiz-templates/generate-batch/route.ts:30-185 | with up to 500 questions and a successful cleanup, every run preserves the counters-match invariant and well-formed ids |
| GenerateBatch.OversizedBatchIsOrphaned | app/api/quiz-templates/generate-batch/route.ts:82-104 | more than 500 questions give the too-many error after the batch record was written, leaving a batch that claims pending items it does not have |
| GenerateBatch.FailedCleanupIsOrphaned | app/api/quiz-templates/generate-batch/route.ts:143-162 | when both the item commit and the cleanup delete fail, the batch record stays behind without items |
| UpdateQuestion.Update | app/api/quiz-templates/update-question/route.ts:35-96 | any error leaves the store unchanged; a missing id, a missing or empty update and an unknown question are refused in that order; a success has an existing question and passes the paired index check |
| UpdateQuestion.UpdatedFields | app/api/quiz-templates/update-question/route.ts:76-80 | a success merges exactly the supplied fields and updatedAt into the one question, keeps every other field and every other item, and touches no batch or pool |
| UpdateQuestion.UpdateKeepsCountersMatch | app/api/quiz-templates/update-question/route.ts:76-80 | a content edit preserves the counters-match invariant |
| UpdateQuestion.ContentEditKeepsStatuses | app/api/quiz-templates/update-question/route.ts:76-80 | replacing one item by one with the same batch, status and pool keeps every item's batch, status and pool |
| UpdateQuestion.PairedEditKeepsIndexInRange | app/api/quiz-templates/update-question/route.ts:66-74 | when options and correctIndex are supplied together, an accepted edit keeps the answer index inside the options |
| UpdateQuestion.IndexOnlyEditIsUnchecked | app/api/quiz-templates/update-question/route.ts:67 | a lone correctIndex equal to the options' length is accepted and leaves the answer index out of range |
| UpdateQuestion.OptionsOnlyEditIsUnchecked | app/api/quiz-templates/update-question/route.ts:67 | a lone empty options list is accepted and leaves the answer index out of range |
| Sampler.Swap | app/api/quiz-templates/fetch-quiz/route.ts:39 | a swap keeps the length |
| Sampler.SwapPermutes | app/api/quiz-templates/fetch-quiz/route.ts:39 | a swap keeps the multiset of elements |
| Sampler.Shuffled | app/api/quiz-templates/fetch-quiz/route.ts:35-42 | applying a valid swap sequence (step k swaps position n-1-k with some j at or below it) keeps the length |
| Sampler.ShuffledPermutes | app/api/quiz-templates/fetch-quiz/route.ts:35-42 | any valid swap sequence yields a permutation of the input |
| Sampler.ShuffledStep | app/api/quiz-templates/fetch-quiz/route.ts:37-39 | one more loop step swaps the next position i with an index j, 0 ≤ j ≤ i |
| Sampler.ValidSwapsExtend | app/api/quiz-templates/fetch-quiz/route.ts:37-38 | choosing any j in [0, i] during the descending loop keeps the swap sequence valid |
| Sampler.ShuffleArray | app/api/quiz-templates/fetch-quiz/route.ts:35-42 | returns the input shuffled by n-1 valid swaps, so a permutation with the same length and multiset, working on a copy of its argument |
| Sampler.SwapInPlace | app/api/quiz-templates/fetch-quiz/route.ts:39 | swapping two array cells in place leaves the array as the sequence swap of its old contents |
| Sampler.ServedAll | app/api/quiz-templates/fetch-quiz/route.ts:80-90 | one served question per stored item, in order |
| Sampler.Taken | app/api/quiz-templates/fetch-quiz/route.ts:101 | `slice(0, n)` of n ≥ 0 takes min(available, n) items, and never more than are available |
| Sampler.Snapshot | app/api/quiz-templates/fetch-quiz/route.ts:72-78 | a query snapshot lists every matching item exactly once |
| Sampler.SelectFor | app/api/quiz-templates/fetch-quiz/route.ts:70-104 | one interest's draw lists its approved matching items and takes Taken(available, n) of them, drawn from those items; an interest with no items contributes nothing |
| Sampler.FetchQuiz | app/api/quiz-templates/fetch-quiz/route.ts:44-115 | the request fails exactly when it does not have three interests, then exactly when level or mode is missing; a success is a permutation of the three interests' selections, in interest order |
| Sampler.SelectionTakesAtMost | app/api/quiz-templates/fetch-quiz/route.ts:101 | one selection holds at most questionsPerInterest items |
| Sampler.FetchedAtMost | app/api/quiz-templates/fetch-quiz/route.ts:107-115 | the response holds at most 3·questionsPerInterest questions |
| Sampler.FetchedFromCandidates | app/api/quiz-templates/fetch-quiz/route.ts:72-78 | every served question comes from an approved item whose interest, level and mode match the request |
| Sampler.FlattenLength | app/api/quiz-templates/fetch-quiz/route.ts:104 | appending parts of at most n items each gives at most parts·n items |
| QuizRuns.BatchPlanIsServicePlan | app/api/gemini/batch/route.ts:20-51 | the route's own 30-entry plan is cell for cell the same as the generation service's plan |
| QuizRuns.CheckUser | app/api/gemini/route.ts:22-50 | the user check passes exactly for a non-empty id of a stored user with interests, returning those interests; otherwise it gives the missing-id, not-found or no-interests error in that order |
| QuizRuns.StartGeneration | app/api/gemini/route.ts:18-73 | the start succeeds exactly when the user check passes; a failure writes nothing and passes on the check's error; users and quizzes are never written |
| QuizRuns.StartedRun | app/api/gemini/route.ts:55-65 | a started run is merged to pending, progress 0, total 30, current batch 0 with the user's interests and new timestamps, keeping an existing record's other fields, and no other run changes |
| QuizRuns.GetGeneration | app/api/gemini/route.ts:85-110 | the read fails with missing-id exactly for an empty id, succeeds exactly for a stored run and returns it, and otherwise reports no generation |
| QuizRuns.WindowEnd | app/api/gemini/batch/route.ts:108-109 | a window never ends past the 30 plan entries |
| QuizRuns.WindowsPartitionPlan | app/api/gemini/batch/route.ts:53-119 | windows 0 to 5 are the plan's consecutive slices of 5 and together make up the whole plan; every window from 6 on is empty |
| QuizRuns.NegativeBatchIndex | app/api/gemini/batch/route.ts:108-110 | a negative batch index follows slice semantics: -1 gives an empty window, and -2 gives entries 20 to 24 with end index -5 |
| QuizRuns.RemoveSpaces | app/api/gemini/batch/route.ts:157 | removing whitespace never lengthens a string, leaves no space, and leaves a space-free string alone |
| QuizRuns.GeneratedQuestions | app/api/gemini/regenerate/route.ts:46-52 | a successful generation has 15 questions |
| QuizRuns.CellResult | app/api/gemini/batch/route.ts:125-147 | a successful cell has 15 questions |
| QuizRuns.WindowResults | app/api/gemini/batch/route.ts:124-148 | one isolated result per window cell, each being that cell's own generation outcome |
| QuizRuns.Successes | app/api/gemini/batch/route.ts:152-175 | the success count never exceeds the number of results |
| QuizRuns.SaveResultsShape | app/api/gemini/batch/route.ts:150-175 | the save pass writes exactly the quiz ids of the successful cells, each as a fresh pending quiz of that user and those interests, and leaves every other quiz as it was |
| QuizRuns.SavedIdsStep | app/api/gemini/batch/route.ts:154-157 | one more result adds its cell's quiz id exactly when it succeeded |
| QuizRuns.StartedStore | app/api/gemini/batch/route.ts:89-105 | after the initialisation step the user has a run record |
| QuizRuns.ProcessBatch | app/api/gemini/batch/route.ts:55-199 | a failed user check is passed on with no write, and the user table is never written |
| QuizRuns.BatchProgress | app/api/gemini/batch/route.ts:177-199 | after a committed non-empty window, progress is the window end even when some cells failed, the current batch is b+1, the run is completed exactly when the end reaches 30 (stamping completedAt) and in progress otherwise, and the response reports the window's success count |
| QuizRuns.LastBatchCompletes | app/api/gemini/batch/route.ts:181-190 | batch 5 completes the run with progress 30 and current batch 6 |
| QuizRuns.CommitFailureLeavesRunUnfailed | app/api/gemini/batch/route.ts:201-217 | a failed commit saves no quiz and does not mark the run failed, because the failure path cannot read the request again |
| QuizRuns.FirstBatchResetsRun | app/api/gemini/batch/route.ts:94-105 | batch 0 resets the run to a fresh record with the user's interests, total 30 and no completion or error |
| QuizRuns.Regenerate | app/api/gemini/regenerate/route.ts:19-97 | a missing field is refused with no write, a missing quiz leaves the store unchanged with an error, and users, runs and the set of quiz ids never change |
| QuizRuns.RegenerateSettles | app/api/gemini/regenerate/route.ts:39-88 | the quiz is never left regenerating; a success replaces it by a pending quiz with 15 new questions, the original createdAt if there was one, and no approval or error; a generation failure returns it to pending with regenerationError set and the old questions; no other quiz changes |
| QuizDatabase.QueueSaves | app/api/gemini/batch/route.ts:150-175 | the save loop queues exactly the writes of the save pass and counts the successes |
| QuizDatabase.ApproveSnapshot | lib/quizActions.ts:31-38 | the approve-all loop approves exactly the snapshot's quizzes and counts them |
| QuizDatabase.OverwriteTwice | app/api/gemini/regenerate/route.ts:57-68 | a second write of one key replaces the first |
| QuizDatabase.QuizDb.ReadGeneration | app/api/gemini/route.ts:85-110 | the GET handler returns what GetGeneration says for the current tables |
| QuizActions.ApproveQuizSet | lib/quizActions.ts:5-18 | approving one quiz set succeeds exactly when it exists, and a failure writes nothing |
| QuizActions.ApprovedOneQuizSet | lib/quizActions.ts:7-11 | a success sets status approved and approvedAt on that one quiz and changes nothing else |
| QuizActions.ApproveAllPending | lib/quizActions.ts:21-50 | a failure is a failed commit and writes nothing; with no pending quiz of the user the result is 0 and nothing is written |
| QuizActions.ApprovedAllPending | lib/quizActions.ts:21-45 | a success reports how many quizzes were pending, approves exactly the user's pending quizzes, leaves every other quiz alone, and leaves the user with none pending |
| QuizActions.RegenerateQuizSet | lib/quizActions.ts:53-111 | a missing quiz gives not-found with no write; users, runs and the quiz ids never change |
| QuizActions.RegenerateQuizSetSettles | lib/quizActions.ts:59-107 | the quiz ends pending whatever happens, with regenerationError set to the error on failure and 15 new questions on success; no other quiz changes |
| QuizActions.TriggerInterests | lib/quizActions.ts:121-132 | interests come from the user record when there is one, else from the run record, else are empty |
| QuizActions.TriggerQuizGeneration | lib/quizActions.ts:114-180 | users and quizzes are never written; empty interests fail with no-interests and mark the run failed |
| QuizActions.TriggerSettles | lib/quizActions.ts:139-176 | a success leaves the run pending with progress 0 of 30; a failure leaves any existing run failed with that error; a failure after the pending write still leaves a run record |
| QuizActions.TriggerWithoutUserRecordFails | lib/quizActions.ts:129-160 | interests taken from the run record get past the client's check, but the generation route then refuses the user without a user record, and the run is marked failed |
| QuizDatabase.QuizDb.PostGeneration | app/api/gemini/route.ts:18-73 | the POST handler leaves the tables and returns exactly what StartGeneration says |
| QuizDatabase.QuizDb.PostBatch | app/api/gemini/batch/route.ts:55-199 | the batch handler leaves the tables and returns exactly what ProcessBatch says |
| QuizDatabase.QuizDb.PostRegenerate | app/api/gemini/regenerate/route.ts:19-97 | the regeneration handler leaves the tables and returns exactly what Regenerate says |
| QuizDatabase.QuizDb.RegenerateExisting | app/api/gemini/regenerate/route.ts:34-88 | marking, generating and then overwriting or resetting an existing quiz gives exactly Regenerate's result |
| QuizDatabase.QuizDb.ApproveQuizSet | lib/quizActions.ts:5-18 | the action leaves the tables and returns exactly what QuizActions.ApproveQuizSet says |
| QuizDatabase.QuizDb.ApproveAllPendingQuizSets | lib/quizActions.ts:21-50 | the action leaves the tables and returns exactly what ApproveAllPending says |
| QuizDatabase.QuizDb.RegenerateQuizSet | lib/quizActions.ts:53-111 | the action leaves the tables and returns exactly what QuizActions.RegenerateQuizSet says |
| QuizDatabase.QuizDb.TriggerQuizGeneration | lib/quizActions.ts:114-180 | the action leaves the tables and returns exactly what QuizActions.TriggerQuizGeneration says |
| TemplateDatabase.GroupRequest | app/api/quiz-templates/approve-questions/route.ts:49-70 | the grouping loop builds exactly the per-pool groups and the per-batch tallies |
| TemplateDatabase.CountPerBatch | app/api/quiz-templates/reject-questions/route.ts:42-47 | the tally loop counts, per batch, the request items that belong to it |
| TemplateDatabase.WriteItems | app/api/quiz-templates/approve-questions/route.ts:75-82 | the item loop applies the item write to exactly the requested items |
| TemplateDatabase.WritePools | app/api/quiz-templates/approve-questions/route.ts:84-98 | the pool loop produces exactly the merged pools |
| TemplateDatabase.WritePoolDecrements | app/api/quiz-templates/unapprove-questions/route.ts:85-92 | the pool loop produces the decremented pools, or fails when a touched pool does not exist |
| TemplateDatabase.WriteBatchCounts | app/api/quiz-templates/approve-questions/route.ts:100-108 | the batch loop produces exactly the counter-adjusted batches, or fails when a counted batch does not exist |
| TemplateDatabase.RecomputeStatuses | app/api/quiz-templates/approve-questions/route.ts:112-129 | the status loop produces exactly the recomputed statuses |
| TemplateDatabase.WriteGeneratedItems | app/api/quiz-templates/generate-batch/route.ts:106-139 | the item loop writes exactly the new items and counts one write per question |
| TemplateDatabase.TemplateDb.PostApproveQuestions | app/api/quiz-templates/approve-questions/route.ts:19-145 | the handler leaves the tables and returns exactly what Approve says |
| TemplateDatabase.TemplateDb.PostRejectQuestions | app/api/quiz-templates/reject-questions/route.ts:19-106 | the handler leaves the tables and returns exactly what Reject says |
| TemplateDatabase.TemplateDb.PostUnapproveQuestions | app/api/quiz-templates/unapprove-questions/route.ts:18-139 | the handler leaves the tables and returns exactly what Unapprove says |
| TemplateDatabase.TemplateDb.PostGenerateBatch | app/api/quiz-templates/generate-batch/route.ts:30-185 | the handler leaves the tables and returns exactly what Generate says |
| TemplateDatabase.TemplateDb.PostUpdateQuestion | app/api/quiz-templates/update-question/route.ts:35-96 | the handler leaves the tables and returns exactly what Update says |
| UserHelpers.StatusFromCounts | lib/userHelpers.ts:59-70 | the status is approved exactly when every one of a non-empty set of quiz sets is approved, pending exactly when none is, partial otherwise, and never no-generation; the separate 30-of-30 test adds nothing |
| UserHelpers.EnhanceUserWithQuizCounts | lib/userHelpers.ts:13-81 | a missing or still-pending generation gives no-generation with zero counters (and no run attached when the run is missing); missing or zero counts give pending with zero counters; otherwise the counters are copied and the status follows them; quizSets always equals total |
| UserHelpers.EnhanceUserWithQuizData | lib/userHelpers.ts:84-141 | no-generation exactly when the run is missing or pending; otherwise total is the number of quiz sets, approved and pending are the filter counts (a set without status counts as pending), and approved plus pending never exceeds total |
| UserHelpers.DataViewIsCountsView | lib/userHelpers.ts:13-141 | the detail-view helper on a list of quiz sets gives exactly what the table helper gives on the counts of that list, the empty list included |
| UserHelpers.TableAgreesWithDetail | app/hooks/useFirebaseData.ts:197-255 | for every userId, empty included, the table summary built from the count fold over all quiz documents equals the detail summary built from the documents the detail view lists for that id |
| UserHelpers.HelperTablesAreShared | lib/userHelpers.ts:170-193 | the helpers' own game-mode, level and level-to-difficulty tables are the shared constants, in the same order |
| UserHelpers.IndexOf | lib/userHelpers.ts:214-215 | -1 exactly when the value is absent; otherwise the first position holding it |
| UserHelpers.GetQuizSetNumber | lib/userHelpers.ts:210-224 | for a known game mode and level the number is six times the mode's position plus the level's position plus one, between 1 and 30; 0 for an unknown mode or level; the difficulty is ignored |
| UserHelpers.QuizSetNumberInjective | lib/userHelpers.ts:210-224 | two known (mode, level) pairs with the same quiz set number are the same pair |
| UserHelpers.PlanNumbering | lib/geminiService.ts:448-479 | the i-th entry of the generation plan is the i-th (mode, level, difficulty) cell of the helpers and its quiz set number is i + 1 |
| UserHelpers.KeyInjective | lib/userHelpers.ts:176 | the dash-joined lookup key determines the mode, level and difficulty whenever the second key's parts contain no dash |
| UserHelpers.OrganizeQuizSets | lib/userHelpers.ts:169-207 | the nested mode-then-level loop returns exactly the quiz sets the lookup map holds under the 30 cell keys, in cell order |
| UserHelpers.WalkMode | lib/userHelpers.ts:196-203 | the inner level loop appends exactly the present cells of one game mode |
| UserHelpers.QuizMapLast | lib/userHelpers.ts:174-178 | the lookup map keeps, for each key, the last quiz set with that key |
| UserHelpers.OrganizedShape | lib/userHelpers.ts:169-207 | the organized list has at most 30 entries, each with a known mode and level and the level's difficulty, each the map's entry for its key, in strictly increasing quiz set number |
| UserHelpers.OrganizedComplete | lib/userHelpers.ts:169-207 | every quiz set whose mode and level are known and whose difficulty matches its level is represented in the organized list by the map's entry for its key |
| FirebaseHooks.CountQuizzes | app/hooks/useFirebaseData.ts:195-222 | the imperative fold over the snapshot's documents builds exactly the count map the recursive definition gives |
| FirebaseHooks.UserDocs | app/hooks/useFirebaseData.ts:251-255 | the documents the userId query selects are never more than all documents |
| FirebaseHooks.UserDocsMembers | app/hooks/useFirebaseData.ts:251-255 | a document is among a user's documents exactly when it is in the snapshot and carries that userId |
| FirebaseHooks.UserDocsConcat | app/hooks/useFirebaseData.ts:251-255 | the per-user selection distributes over concatenation, so it keeps snapshot order |
| FirebaseHooks.UserQuizSets | app/hooks/useFirebaseData.ts:245-255 | the detail view never lists more documents than the snapshot holds |
| FirebaseHooks.UserQuizSetsMembers | app/hooks/useFirebaseData.ts:245-255 | the detail view lists a document exactly when the id is non-empty and the document is in the snapshot and carries that userId; a falsy id lists nothing |
| FirebaseHooks.CountsAreFilters | app/hooks/useFirebaseData.ts:197-220 | a user has a count entry exactly when the userId is non-empty and owns a document; the entry's total, approved and pending are the counts over that user's documents, with a missing status counted as pending |
| FirebaseHooks.CountsAddUp | app/hooks/useFirebaseData.ts:211-219 | approved, pending and regenerating together count every document, so approved plus pending never exceeds the total |
| FirebaseHooks.UserCountsBounded | app/hooks/useFirebaseData.ts:197-220 | a user's count entry has a positive total equal to the number of that user's documents, approved plus pending at most that total, and a non-empty userId |
| FirebaseHooks.CollectShape | app/hooks/useFirebaseData.ts:60-79 | the scan lists every non-empty userId once, keeps the creation stamp of that user's first document and the first non-empty interests list |
| FirebaseHooks.FallbackName | app/hooks/useFirebaseData.ts:112 | the fallback name is "User " followed by a prefix of the id of at most 8 characters |
| FirebaseHooks.UseUsers | app/hooks/useFirebaseData.ts:55-132 | the callback lists one user per scanned userId, in first-seen order, each built from the user record when the lookup finds one and from the scan otherwise |
| FirebaseHooks.ListedUsers | app/hooks/useFirebaseData.ts:87-131 | the listed users have distinct ids; a user is listed exactly when the id is non-empty and owns a quiz document; a user without a record gets the fallback name and the creation stamp of that user's first document |
| TemplateHooks.GivenCount | app/hooks/useQuizTemplates.ts:26-34 | the number of given filter arguments is at most the number of arguments |
| TemplateHooks.FiltersMeaning | app/hooks/useQuizTemplates.ts:24-36 | a document passes the pushed equality filters exactly when it agrees with every given (non-empty) argument on that argument's field |
| TemplateHooks.FiltersInOrder | app/hooks/useQuizTemplates.ts:77-93 | a given argument's equality filter sits at the position equal to the number of given arguments before it |
| TemplateHooks.FiltersAreWheres | app/hooks/useQuizTemplates.ts:77-93 | the conditional pushes produce only equality filters |
| TemplateHooks.FiltersLength | app/hooks/useQuizTemplates.ts:77-93 | one filter is pushed per given argument and none for an empty or missing one |
| TemplateHooks.FiltersKeepFieldOrder | app/hooks/useQuizTemplates.ts:77-93 | filters appear in the order of their fields in the hook: an earlier given argument's filter precedes a later one's |
| TemplateHooks.StatusArg | app/hooks/useQuizTemplates.ts:82-84 | the status argument counts as given exactly when a status is selected |
| TemplateHooks.PushLocation | app/hooks/useQuizTemplates.ts:143-151 | the interest, level and game-mode pushes append exactly one equality filter per given argument, in that order |
| TemplateHooks.BatchConstraints | app/hooks/useQuizTemplates.ts:23-38 | the batch listing's constraint-building steps produce exactly the batch query |
| TemplateHooks.QuestionConstraints | app/hooks/useQuizTemplates.ts:76-95 | the question listing's constraint-building steps produce exactly the question query |
| TemplateHooks.PoolConstraints | app/hooks/useQuizTemplates.ts:140-151 | the pool listing's constraint-building steps produce exactly the pool query |
| TemplateHooks.PoolQueryMeaning | app/hooks/useQuizTemplates.ts:140-151 | the pool query has one equality filter per given argument and no sort, and admits a pool exactly when its interest, level and game mode match every given argument |
| TemplateHooks.BatchQueryMeaning | app/hooks/useQuizTemplates.ts:23-38 | the batch query is the pool query's filters followed by a descending createdAt sort, and admits the same documents |
| TemplateHooks.StatusNamesDiffer | types/quiz-templates.ts:4 | two question statuses have the same stored name exactly when they are the same status |
| TemplateHooks.QuestionQueryMeaning | app/hooks/useQuizTemplates.ts:76-95 | the question query is one equality filter per given argument followed by the createdAt sort, and admits a question exactly when its batch, status, interest, level and game mode match every given argument |
| TemplateHooks.StatusCount | app/hooks/useQuizTemplates.ts:248-249 | the number of questions with a status is at most the number of questions |
| TemplateHooks.Summaries | app/hooks/useQuizTemplates.ts:250-257 | one summary per batch |
| TemplateHooks.SummariesProject | app/hooks/useQuizTemplates.ts:250-257 | the i-th summary is the projection of the i-th batch onto id, number, the three counters and status |
| TemplateHooks.UpdateStats | app/hooks/useQuizTemplates.ts:243-259 | the stats count the batches and questions, take totalApproved from the first pool's total or 0 when no pool matched, and count pending and rejected questions |
| TemplateHooks.StatusCountsAddUp | app/hooks/useQuizTemplates.ts:248-249 | the four status counts add up to the number of questions |
| TemplateHooks.StatsPendingAndRejectedBounded | app/hooks/useQuizTemplates.ts:246-249 | pending plus rejected never exceeds totalGenerated |
| TemplateHooks.StatusCountIsCardinality | app/hooks/useQuizTemplates.ts:238-249 | counting a status over a listing of distinct question ids equals the size of the set of those ids carrying that status |
| TemplateHooks.ApprovedOfListing | app/hooks/useQuizTemplates.ts:217-222 | the approved questions of a listing that holds exactly one pool's questions are that pool's approved questions |
| TemplateHooks.StatsApprovedAgrees | app/hooks/useQuizTemplates.ts:203-259 | when the pool counters match the table and the question listing is the pool's questions, totalApproved equals the number of approved questions in the listing |

## Left out

- User interface: the dashboard pages, navigation bar, login pages and confirmation modal are rendering and browser state.
- app/api/users/delete/route.ts and the Firebase and Gemini client initialisation: these are thin wrappers around foreign libraries.
- The text-completion call: the model is the parameter `oracle`, which returns text or a failure for a prompt and an attempt number.
- `generateQuestionBatch`: the batch generation route imports it from a module that does not define it, so its outcome is a parameter of `GenerateBatch.Generate`.
- `JSON.parse` and the regular-expression engine: parsing is the partial-function parameter `parse`. The fence, bracket and comma regexes are modelled only as the rewrites they perform.
- Prompt wording: each prompt builder is a plain string function that keeps the opening sentence, the JSON rules, the target and interests lines, the mode's focus heading and the closing request. The focus bullets, the example JSON and the closing "IMPORTANT:" line of each source template are not reproduced, and only the target and interests lines are proved to occur in every prompt.
- JSON numbers are integers (`JNum(n: int)`): a fractional `correctIndex` such as 1.5, which the type test accepts and copies unchanged, cannot be represented.
- `toUpperCase` is modelled on ASCII letters only; other characters are left as they are, unlike the Unicode case mapping of JavaScript.
- Time: `setTimeout` delays, `Date.now`, `Timestamp.now` and `serverTimestamp` are parameters. `WithRetry` returns the list of delays it would wait instead of waiting.
- Randomness: `Math.random` in the shuffle is a nondeterministic index choice, recorded as a ghost list of swaps.
- Concurrency: concurrent moderation requests and the interleaving of the generation calls inside one runner window are not modelled. Each handler is one sequential transition, and a window's outcomes are settled in index order.
- Generation.RunWithConcurrencyLimit: requires a positive limit, because with a limit of 0 or less the source's window loop never ends.
- Store mechanics: not modelled are
  - the snapshot listeners and their error callbacks (app/hooks/useQuizTemplates.ts:40-70, app/hooks/useFirebaseData.ts:139-143);
  - query execution order and indexes;
  - the fan-in of the three stats listeners;
  - HTTP status codes and response plumbing.

  Only success and error variants are kept. A commit failure is a boolean parameter, and other write failures are not modelled. The batched `update` of a missing document fails the whole commit.
- Error message text: errors are datatype constructors, not strings.
- UpdateQuestion.Update: edits are restricted to the six optional fields declared by `UpdateQuestionRequest` (app/api/quiz-templates/update-question/route.ts:18-28): question, passage, options, correctIndex, explanation and clue. A body carrying other keys, such as `status` or `batchId`, is written unchecked by the spread at route.ts:77-80 and could change an item's status without touching its batch counters; such bodies are not modelled, and `UpdateKeepsCountersMatch` relies on this restriction.
- `formatDate` and the `toMillis` sort comparator in app/hooks/useFirebaseData.ts: these depend on locale formatting and host objects.
- `useQuizGenerations` and the hooks' loading and error state: these copy snapshot documents into React state without further logic.
- Document order in query results: each listing is a sequence in the order the store returns it. The descending `createdAt` sort is recorded as the query's last constraint but not applied.
