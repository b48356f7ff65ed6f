/**
 * The quiz sampler: for each of three interests it takes the approved
 * template questions of the requested level and game mode, shuffles them,
 * keeps the first `questionsPerInterest`, and finally shuffles the union.
 * The random index of each shuffle step is a nondeterministic choice.
 */
module Sampler {

  import opened Wrappers
  import opened JsLib
  import opened Constants
  import opened TemplateTypes

  // ---------------------------------------------------------------------
  // Fisher-Yates.
  // ---------------------------------------------------------------------

  function Swap<T>(s: seq<T>, i: nat, j: nat): (r: seq<T>)
    requires i < |s| && j < |s|
    ensures |r| == |s|
  {
    s[i := s[j]][j := s[i]]
  }

  lemma SwapPermutes<T>(s: seq<T>, i: nat, j: nat)
    requires i < |s| && j < |s|
    ensures multiset(Swap(s, i, j)) == multiset(s)
  {
  }

  /**
   * A record of the random choices of a shuffle of `n` elements: the k-th
   * step swaps position n-1-k with a position no greater than it, and there
   * is at most one step per position above 0.
   */
  predicate ValidSwaps(n: nat, swaps: seq<nat>)
  {
    && (|swaps| == 0 || |swaps| < n)
    && forall k :: 0 <= k < |swaps| ==> swaps[k] <= n - 1 - k
  }

  /** The arrangement a shuffle reaches after the recorded steps. */
  function Shuffled<T>(s: seq<T>, swaps: seq<nat>): (r: seq<T>)
    requires ValidSwaps(|s|, swaps)
    ensures |r| == |s|
    decreases |swaps|
  {
    if |swaps| == 0 then s
    else
      var prev := swaps[..|swaps| - 1];
      assert ValidSwaps(|s|, prev);
      Swap(Shuffled(s, prev), |s| - |swaps|, swaps[|swaps| - 1])
  }

  /** Whatever the choices, a shuffle rearranges its input and nothing more. */
  lemma {:induction false} ShuffledPermutes<T>(s: seq<T>, swaps: seq<nat>)
    requires ValidSwaps(|s|, swaps)
    ensures multiset(Shuffled(s, swaps)) == multiset(s)
    decreases |swaps|
  {
    if |swaps| > 0 {
      var prev := swaps[..|swaps| - 1];
      assert ValidSwaps(|s|, prev);
      ShuffledPermutes(s, prev);
      SwapPermutes(Shuffled(s, prev), |s| - |swaps|, swaps[|swaps| - 1]);
    }
  }

  /** One more step swaps the next position down with the chosen one. */
  lemma ShuffledStep<T>(s: seq<T>, swaps: seq<nat>, j: nat)
    requires ValidSwaps(|s|, swaps + [j])
    ensures ValidSwaps(|s|, swaps) && j <= |s| - 1 - |swaps|
    ensures Shuffled(s, swaps + [j]) == Swap(Shuffled(s, swaps), |s| - |swaps| - 1, j)
  {
    assert (swaps + [j])[|swaps|] == j;
    assert (swaps + [j])[..|swaps|] == swaps;
    assert forall k :: 0 <= k < |swaps| ==> swaps[k] == (swaps + [j])[k];
  }

  /** A choice no greater than the next position extends a valid record. */
  lemma ValidSwapsExtend(n: nat, swaps: seq<nat>, j: nat)
    requires ValidSwaps(n, swaps) && |swaps| + 1 < n && j <= n - 1 - |swaps|
    ensures ValidSwaps(n, swaps + [j])
  {
    assert forall k :: 0 <= k < |swaps| ==> (swaps + [j])[k] == swaps[k];
  }

  /**
   * The shuffle: a copy of the input is permuted in place, from the last
   * position down to 1, position i swapping with a random j in [0, i].
   */
  method ShuffleArray<T>(input: seq<T>) returns (r: seq<T>, ghost swaps: seq<nat>)
    ensures ValidSwaps(|input|, swaps) && |swaps| == if |input| == 0 then 0 else |input| - 1
    ensures r == Shuffled(input, swaps)
    ensures |r| == |input| && multiset(r) == multiset(input)
  {
    var shuffled := new T[|input|](k requires 0 <= k < |input| => input[k]);
    assert shuffled[..] == input;
    swaps := [];
    var i := |input| - 1;
    while i > 0
      invariant |input| > 0 ==> 0 <= i < |input|
      invariant |input| == 0 ==> i == -1
      invariant |swaps| == |input| - 1 - i
      invariant ValidSwaps(|input|, swaps)
      invariant shuffled[..] == Shuffled(input, swaps)
    {
      var j :| 0 <= j <= i;
      ValidSwapsExtend(|input|, swaps, j);
      ShuffledStep(input, swaps, j);
      SwapInPlace(shuffled, i, j);
      swaps := swaps + [j];
      i := i - 1;
    }
    r := shuffled[..];
    ShuffledPermutes(input, swaps);
  }

  /** The destructuring swap of two array cells. */
  method SwapInPlace<T>(a: array<T>, i: nat, j: nat)
    requires i < a.Length && j < a.Length
    modifies a
    ensures a[..] == Swap(old(a[..]), i, j)
  {
    var t := a[i];
    a[i] := a[j];
    a[j] := t;
  }

  // ---------------------------------------------------------------------
  // The quiz request.
  // ---------------------------------------------------------------------

  const DEFAULT_QUESTIONS_PER_INTEREST: int := 5

  datatype FetchError = NeedThreeInterests | MissingLevelOrMode

  /** The ids of the approved template questions of one interest, level and game mode. */
  function Candidates(qs: map<string, TemplateQuestion>, interest: string, level: string, gameMode: string): set<string>
  {
    set id | id in qs && qs[id].interest == interest && qs[id].level == level && qs[id].gameMode == gameMode
                     && qs[id].status == Approved
  }

  /** The served form of a stored question; an empty passage is dropped. */
  function Served(q: TemplateQuestion): Question
  {
    q.content.(passage := if q.content.passage.Some? && q.content.passage.value != "" then q.content.passage else None)
  }

  function ServedAll(qs: map<string, TemplateQuestion>, ids: seq<string>): (r: seq<Question>)
    requires forall x :: x in ids ==> x in qs
    ensures |r| == |ids|
  {
    if |ids| == 0 then [] else ServedAll(qs, ids[..|ids| - 1]) + [Served(qs[ids[|ids| - 1]])]
  }

  function Flatten<T>(parts: seq<seq<T>>): seq<T>
  {
    if |parts| == 0 then [] else Flatten(parts[..|parts| - 1]) + parts[|parts| - 1]
  }

  /** How many items `slice(0, n)` keeps of `available`. */
  function Taken(available: nat, n: int): (r: nat)
    ensures r <= available
    ensures n >= 0 ==> r == if n < available then n else available
    ensures n <= 0 ==> r < available || available == 0
  {
    SliceIndex(available, n)
  }

  /** A prefix of a sequence draws its elements from the sequence. */
  lemma PrefixSubMultiset<T>(s: seq<T>, m: nat)
    requires m <= |s|
    ensures multiset(s[..m]) <= multiset(s)
  {
    assert s == s[..m] + s[m..];
  }

  /** A flattening is no longer than the number of parts times the longest part. */
  lemma {:induction false} FlattenLength<T>(parts: seq<seq<T>>, n: nat)
    requires forall k :: 0 <= k < |parts| ==> |parts[k]| <= n
    ensures |Flatten(parts)| <= |parts| * n
    decreases |parts|
  {
    if |parts| > 0 {
      FlattenLength(parts[..|parts| - 1], n);
    }
  }

  /** The query snapshot: the matching ids in some order, each once. */
  method Snapshot(ids: set<string>) returns (xs: seq<string>)
    ensures Distinct(xs)
    ensures forall x :: x in xs <==> x in ids
  {
    xs := [];
    var todo := ids;
    while todo != {}
      invariant todo <= ids
      invariant Distinct(xs)
      invariant forall x :: x in xs <==> x in ids - todo
      decreases todo
    {
      var x :| x in todo;
      assert x !in xs;
      xs := xs + [x];
      todo := todo - {x};
    }
  }

  /** What one interest's selection is: a random draw of Taken(|available|, n) of its available questions. */
  ghost predicate Selection(qs: map<string, TemplateQuestion>, interest: string, level: string, gameMode: string, n: int,
                            available: seq<string>, selected: seq<Question>)
  {
    && Distinct(available)
    && (forall x :: x in available <==> x in Candidates(qs, interest, level, gameMode))
    && (forall x :: x in available ==> x in qs)
    && |selected| == Taken(|available|, n)
    && multiset(selected) <= multiset(ServedAll(qs, available))
  }

  /** One interest's draw: its approved questions, shuffled, cut to the first `n`; nothing when there are none. */
  method SelectFor(qs: map<string, TemplateQuestion>, interest: string, level: string, gameMode: string, n: int)
    returns (chosen: seq<Question>, ghost ids: seq<string>)
    ensures Selection(qs, interest, level, gameMode, n, ids, chosen)
  {
    var snapshot := Snapshot(Candidates(qs, interest, level, gameMode));
    ids := snapshot;
    var availableQuestions := ServedAll(qs, snapshot);
    chosen := [];
    if |availableQuestions| != 0 {
      var shuffled, _ := ShuffleArray(availableQuestions);
      chosen := Slice(shuffled, 0, n);
      assert chosen == shuffled[..Taken(|ids|, n)];
      PrefixSubMultiset(shuffled, Taken(|ids|, n));
    }
  }

  /**
   * POST fetch-quiz. After validation, each interest contributes a random
   * selection of its available questions (none, without error, when it has
   * none), and the response is a shuffle of all selections together.
   */
  method FetchQuiz(qs: map<string, TemplateQuestion>, interests: Option<seq<string>>, level: string, gameMode: string,
                   questionsPerInterest: Option<int>)
    returns (r: Result<seq<Question>, FetchError>, ghost available: seq<seq<string>>, ghost selected: seq<seq<Question>>)
    ensures interests.None? || |interests.value| != 3 <==> r == Err(NeedThreeInterests)
    ensures interests.Some? && |interests.value| == 3 ==> (level == "" || gameMode == "" <==> r == Err(MissingLevelOrMode))
    ensures r.Ok? ==>
      var n := if questionsPerInterest.Some? then questionsPerInterest.value else DEFAULT_QUESTIONS_PER_INTEREST;
      && interests.Some? && |interests.value| == 3 && |available| == 3 && |selected| == 3
      && (forall k :: 0 <= k < 3 ==>
            Selection(qs, interests.value[k], level, gameMode, n, available[k], selected[k]))
      && multiset(r.value) == multiset(Flatten(selected))
  {
    available, selected := [], [];
    if interests.None? || |interests.value| != 3 {
      return Err(NeedThreeInterests), available, selected;
    }
    if level == "" || gameMode == "" {
      return Err(MissingLevelOrMode), available, selected;
    }
    var n := if questionsPerInterest.Some? then questionsPerInterest.value else DEFAULT_QUESTIONS_PER_INTEREST;
    var allQuestions: seq<Question> := [];
    var k := 0;
    while k < 3
      invariant 0 <= k <= 3
      invariant |available| == k && |selected| == k
      invariant forall m :: 0 <= m < k ==> Selection(qs, interests.value[m], level, gameMode, n, available[m], selected[m])
      invariant allQuestions == Flatten(selected)
    {
      var chosen, ids := SelectFor(qs, interests.value[k], level, gameMode, n);
      SelectionsSnoc(qs, interests.value, level, gameMode, n, available, selected, ids, chosen);
      FlattenSnoc(selected, chosen);
      allQuestions := allQuestions + chosen;
      available, selected := available + [ids], selected + [chosen];
      k := k + 1;
    }
    var finalQuestions, _ := ShuffleArray(allQuestions);
    r := Ok(finalQuestions);
  }

  lemma SelectionsSnoc(qs: map<string, TemplateQuestion>, interests: seq<string>, level: string, gameMode: string, n: int,
                       available: seq<seq<string>>, selected: seq<seq<Question>>, ids: seq<string>, chosen: seq<Question>)
    requires |available| == |selected| < |interests|
    requires forall m :: 0 <= m < |available| ==> Selection(qs, interests[m], level, gameMode, n, available[m], selected[m])
    requires Selection(qs, interests[|available|], level, gameMode, n, ids, chosen)
    ensures forall m :: 0 <= m < |available| + 1 ==>
      Selection(qs, interests[m], level, gameMode, n, (available + [ids])[m], (selected + [chosen])[m])
  {
    forall m | 0 <= m < |available| + 1
      ensures Selection(qs, interests[m], level, gameMode, n, (available + [ids])[m], (selected + [chosen])[m])
    {
      if m < |available| {
        assert (available + [ids])[m] == available[m] && (selected + [chosen])[m] == selected[m];
      }
    }
  }

  lemma FlattenSnoc<T>(parts: seq<seq<T>>, last: seq<T>)
    ensures Flatten(parts + [last]) == Flatten(parts) + last
  {
    assert (parts + [last])[..|parts|] == parts;
  }

  lemma SelectionTakesAtMost(qs: map<string, TemplateQuestion>, interest: string, level: string, gameMode: string, n: int,
                             available: seq<string>, selected: seq<Question>)
    requires n >= 0 && Selection(qs, interest, level, gameMode, n, available, selected)
    ensures |selected| <= n
  {
  }

  /** With a non-negative count the response holds at most three times that many questions. */
  lemma FetchedAtMost(qs: map<string, TemplateQuestion>, interests: seq<string>, level: string, gameMode: string, n: int,
                      available: seq<seq<string>>, selected: seq<seq<Question>>, response: seq<Question>)
    requires n >= 0 && |interests| == 3 && |available| == 3 && |selected| == 3
    requires forall k :: 0 <= k < 3 ==> Selection(qs, interests[k], level, gameMode, n, available[k], selected[k])
    requires multiset(response) == multiset(Flatten(selected))
    ensures |response| <= 3 * n
  {
    forall k | 0 <= k < 3
      ensures |selected[k]| <= n
    {
      SelectionTakesAtMost(qs, interests[k], level, gameMode, n, available[k], selected[k]);
    }
    FlattenLength(selected, n);
    assert |multiset(response)| == |multiset(Flatten(selected))|;
  }

  /** Every served question is the served form of an approved question of one of the three interests. */
  lemma FetchedFromCandidates(qs: map<string, TemplateQuestion>, interests: seq<string>, level: string, gameMode: string,
                              n: int, available: seq<seq<string>>, selected: seq<seq<Question>>, response: seq<Question>,
                              q: Question)
    requires |interests| == 3 && |available| == 3 && |selected| == 3
    requires forall k :: 0 <= k < 3 ==> Selection(qs, interests[k], level, gameMode, n, available[k], selected[k])
    requires multiset(response) == multiset(Flatten(selected))
    requires q in response
    ensures exists k, id :: 0 <= k < 3 && id in Candidates(qs, interests[k], level, gameMode) && q == Served(qs[id])
  {
    assert q in multiset(Flatten(selected));
    var k := FlattenMember(selected, q);
    assert q in multiset(ServedAll(qs, available[k]));
    var id := ServedAllMember(qs, available[k], q);
  }

  lemma {:induction false} FlattenMember<T>(parts: seq<seq<T>>, x: T) returns (k: nat)
    requires x in Flatten(parts)
    ensures k < |parts| && x in parts[k]
    decreases |parts|
  {
    var pre := parts[..|parts| - 1];
    if x in parts[|parts| - 1] {
      k := |parts| - 1;
    } else {
      k := FlattenMember(pre, x);
    }
  }

  lemma {:induction false} ServedAllMember(qs: map<string, TemplateQuestion>, ids: seq<string>, q: Question) returns (id: string)
    requires forall x :: x in ids ==> x in qs
    requires q in ServedAll(qs, ids)
    ensures id in ids && q == Served(qs[id])
    decreases |ids|
  {
    if q == Served(qs[ids[|ids| - 1]]) {
      id := ids[|ids| - 1];
    } else {
      id := ServedAllMember(qs, ids[..|ids| - 1], q);
    }
  }
}
