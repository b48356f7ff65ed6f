/**
 * The users view's helpers: a user's review status from the table's
 * counters or from the full list of quiz sets, the quiz set number 1 to 30,
 * and the ordering of a user's quiz sets by game mode and level.
 */
module UserHelpers {

  import opened Wrappers
  import opened JsLib
  import opened Constants
  import opened QuizRuns
  import opened FirebaseHooks
  import Generation

  datatype UserStatus = StatusApproved | StatusPending | StatusPartial | StatusNoGeneration

  /** A listed user with the summary the users table shows. */
  datatype EnhancedUser = EnhancedUser(
    user: UserData,
    status: UserStatus,
    quizSets: int,
    total: int,
    approved: int,
    pending: int,
    generationStatus: Option<GenerationRun>)

  // ---------------------------------------------------------------------
  // Status classification.
  // ---------------------------------------------------------------------

  /**
   * The status both helpers derive from the counters. The leading test for
   * 30 of 30 is subsumed by the general one: approved exactly when every
   * quiz set is, pending exactly when none is.
   */
  function StatusFromCounts(total: int, approved: int): (r: UserStatus)
    ensures r == StatusApproved <==> approved == total && total > 0
    ensures r == StatusPending <==> approved == 0
    ensures r == StatusPartial <==> approved != 0 && !(approved == total && total > 0)
    ensures r != StatusNoGeneration
  {
    if approved == 30 && total == 30 then StatusApproved
    else if approved == total && total > 0 then StatusApproved
    else if approved == 0 then StatusPending
    else StatusPartial
  }

  /** No generation run yet, or one that is still pending: shown as not generated. */
  predicate NotGenerated(generation: Option<GenerationRun>)
  {
    generation.None? || generation.value.status == RunPending
  }

  /** enhanceUserWithQuizCounts: the users table's summary from the count fold's entry. */
  function EnhanceUserWithQuizCounts(user: UserData, generation: Option<GenerationRun>, counts: Option<UserQuizCounts>): (r: EnhancedUser)
    ensures r.user == user && r.quizSets == r.total
    ensures r.status == StatusNoGeneration <==> NotGenerated(generation)
    ensures r.generationStatus == generation
    ensures NotGenerated(generation) || counts.None? || counts.value.total == 0 ==>
      r.total == 0 && r.approved == 0 && r.pending == 0
    ensures !NotGenerated(generation) && (counts.None? || counts.value.total == 0) ==> r.status == StatusPending
    ensures !NotGenerated(generation) && counts.Some? && counts.value.total != 0 ==>
      && r.total == counts.value.total && r.approved == counts.value.approved && r.pending == counts.value.pending
      && r.status == StatusFromCounts(counts.value.total, counts.value.approved)
  {
    if generation.None? then EnhancedUser(user, StatusNoGeneration, 0, 0, 0, 0, None)
    else if generation.value.status == RunPending then EnhancedUser(user, StatusNoGeneration, 0, 0, 0, 0, generation)
    else if counts.None? || counts.value.total == 0 then EnhancedUser(user, StatusPending, 0, 0, 0, 0, generation)
    else
      var c := counts.value;
      EnhancedUser(user, StatusFromCounts(c.total, c.approved), c.total, c.total, c.approved, c.pending, generation)
  }

  /** enhanceUserWithQuizData: the same summary, counted from the user's quiz sets by filtering. */
  function EnhanceUserWithQuizData(user: UserData, generation: Option<GenerationRun>, quizSets: seq<QuizDoc>): (r: EnhancedUser)
    ensures r.user == user && r.quizSets == r.total
    ensures r.status == StatusNoGeneration <==> NotGenerated(generation)
    ensures !NotGenerated(generation) ==>
      && r.total == |quizSets| && r.approved == ApprovedCount(quizSets) && r.pending == PendingCount(quizSets)
      && r.approved + r.pending <= r.total
  {
    if generation.None? then EnhancedUser(user, StatusNoGeneration, 0, 0, 0, 0, None)
    else if generation.value.status == RunPending then EnhancedUser(user, StatusNoGeneration, 0, 0, 0, 0, generation)
    else
      CountsAddUp(quizSets);
      var approved, pending, total := ApprovedCount(quizSets), PendingCount(quizSets), |quizSets|;
      EnhancedUser(user, StatusFromCounts(total, approved), total, total, approved, pending, generation)
  }

  /**
   * The two helpers agree: the summary counted from a user's quiz sets is
   * the summary from the counters of those sets, including the empty case,
   * where the "no counts yet" branch and the general rule meet.
   */
  lemma DataViewIsCountsView(user: UserData, generation: Option<GenerationRun>, quizSets: seq<QuizDoc>)
    ensures EnhanceUserWithQuizData(user, generation, quizSets)
         == EnhanceUserWithQuizCounts(user, generation, Some(CountsOfSets(quizSets)))
  {
    if |quizSets| == 0 {
      assert ApprovedCount(quizSets) == 0 && PendingCount(quizSets) == 0;
    }
  }

  /**
   * The users table, fed by the count fold over all quiz documents, shows
   * every user the same summary as the detail view, fed by that user's own
   * documents; a user with no documents has no fold entry and an empty list.
   */
  lemma TableAgreesWithDetail(docs: seq<QuizDoc>, u: string, user: UserData, generation: Option<GenerationRun>)
    ensures EnhanceUserWithQuizCounts(user, generation, if u in CountsOf(docs) then Some(CountsOf(docs)[u]) else None)
         == EnhanceUserWithQuizData(user, generation, UserQuizSets(docs, u))
  {
    CountsAreFilters(docs, u);
    DataViewIsCountsView(user, generation, UserQuizSets(docs, u));
    if u !in CountsOf(docs) {
      assert UserQuizSets(docs, u) == [];
    }
  }

  // ---------------------------------------------------------------------
  // Quiz set numbers.
  // ---------------------------------------------------------------------

  /** The helpers' own copies of the game modes and levels, in generation order. */
  const SET_GAME_MODES: seq<string> := ["Vocabulary", "Grammar", "Translation", "Sentence Construction", "Reading Comprehension"]

  const SET_LEVELS: seq<string> := ["A1", "A2", "B1", "B2", "C1", "C2"]

  /** The helpers' level-to-difficulty table. */
  const LEVEL_DIFFICULTY: map<string, string> := map[
    "A1" := "easy", "A2" := "easy", "B1" := "medium", "B2" := "medium", "C1" := "hard", "C2" := "hard"]

  /** The copies agree with the shared tables, in the same order. */
  lemma HelperTablesAreShared()
    ensures SET_GAME_MODES == GAME_MODES && SET_LEVELS == CEFR_LEVELS && LEVEL_DIFFICULTY == DIFFICULTY_BY_LEVEL
  {
  }

  /** `indexOf`: the first position of `x`, or -1. */
  function IndexOf(xs: seq<string>, x: string): (r: int)
    ensures r == -1 <==> x !in xs
    ensures r != -1 ==> 0 <= r < |xs| && xs[r] == x && forall k :: 0 <= k < r ==> xs[k] != x
  {
    if |xs| == 0 then -1
    else if xs[0] == x then 0
    else
      var rest := IndexOf(xs[1..], x);
      if rest == -1 then -1 else rest + 1
  }

  /** In a list without repetition, the position of an element is its index. */
  lemma IndexOfDistinct(xs: seq<string>, k: int)
    requires Distinct(xs) && 0 <= k < |xs|
    ensures IndexOf(xs, xs[k]) == k
  {
  }

  /** getQuizSetNumber: six numbers per game mode, one per level; difficulty plays no part. */
  function GetQuizSetNumber(gameMode: string, level: string, difficulty: string): (r: int)
    ensures gameMode in SET_GAME_MODES && level in SET_LEVELS ==>
      && r == 6 * IndexOf(SET_GAME_MODES, gameMode) + IndexOf(SET_LEVELS, level) + 1
      && 1 <= r <= 30
    ensures !(gameMode in SET_GAME_MODES && level in SET_LEVELS) ==> r == 0
  {
    var gameModeIndex := IndexOf(SET_GAME_MODES, gameMode);
    var levelIndex := IndexOf(SET_LEVELS, level);
    if gameModeIndex == -1 || levelIndex == -1 then 0 else gameModeIndex * 6 + levelIndex + 1
  }

  /** Six numbers per mode: the pair of positions is recovered from the number. */
  lemma NumberPositions(a: int, b: int, c: int, d: int)
    requires 0 <= a < 5 && 0 <= b < 6 && 0 <= c < 5 && 0 <= d < 6
    requires 6 * a + b == 6 * c + d
    ensures a == c && b == d
  {
  }

  /** Different known (game mode, level) pairs get different numbers. */
  lemma QuizSetNumberInjective(m1: string, l1: string, d1: string, m2: string, l2: string, d2: string)
    requires m1 in SET_GAME_MODES && l1 in SET_LEVELS && m2 in SET_GAME_MODES && l2 in SET_LEVELS
    requires GetQuizSetNumber(m1, l1, d1) == GetQuizSetNumber(m2, l2, d2)
    ensures m1 == m2 && l1 == l2
  {
    var a, b := IndexOf(SET_GAME_MODES, m1), IndexOf(SET_LEVELS, l1);
    var c, d := IndexOf(SET_GAME_MODES, m2), IndexOf(SET_LEVELS, l2);
    NumberPositions(a, b, c, d);
  }

  /** The lookup cell with number `i + 1`: mode `i / 6`, level `i % 6` and that level's difficulty. */
  function Cell(i: nat): (string, string, string)
    requires i < 30
  {
    var level := SET_LEVELS[i % 6];
    (SET_GAME_MODES[i / 6], level, LEVEL_DIFFICULTY[level])
  }

  /** Cell `6 * m + l` is mode `m` and level `l`. */
  lemma CellOf(m: nat, l: nat)
    requires m < 5 && l < 6
    ensures Cell(6 * m + l) == (SET_GAME_MODES[m], SET_LEVELS[l], LEVEL_DIFFICULTY[SET_LEVELS[l]])
  {
    assert (6 * m + l) / 6 == m && (6 * m + l) % 6 == l;
  }

  /** A cell is a known mode and level with that level's difficulty. */
  lemma CellFields(i: nat)
    requires i < 30
    ensures Cell(i).0 in SET_GAME_MODES && Cell(i).1 in SET_LEVELS
    ensures Cell(i).1 in LEVEL_DIFFICULTY && Cell(i).2 == LEVEL_DIFFICULTY[Cell(i).1]
  {
    assert i / 6 < 5 && i % 6 < 6;
  }

  lemma CellNumber(i: nat)
    requires i < 30
    ensures GetQuizSetNumber(Cell(i).0, Cell(i).1, Cell(i).2) == i + 1
  {
    TablesAreDistinct();
    assert i / 6 < 5 && i % 6 < 6;
    IndexOfDistinct(SET_GAME_MODES, i / 6);
    IndexOfDistinct(SET_LEVELS, i % 6);
    assert 6 * (i / 6) + i % 6 == i;
  }

  /** The plan entry for mode `m` and level `l` is lookup cell `6 * m + l`. */
  lemma PlanCell(m: nat, l: nat)
    requires m < 5 && l < 6
    ensures var e := Generation.QUIZ_PLAN[6 * m + l];
      Cell(6 * m + l) == (e.gameMode, e.level, e.difficulty)
  {
    Generation.PlanLayout();
    CellOf(m, l);
  }

  /** The generation plan, read in order, visits the lookup cells in order and so is numbered 1 to 30. */
  lemma PlanNumbering()
    ensures forall i :: 0 <= i < 30 ==>
      && Cell(i) == (Generation.QUIZ_PLAN[i].gameMode, Generation.QUIZ_PLAN[i].level, Generation.QUIZ_PLAN[i].difficulty)
      && GetQuizSetNumber(Generation.QUIZ_PLAN[i].gameMode, Generation.QUIZ_PLAN[i].level, Generation.QUIZ_PLAN[i].difficulty) == i + 1
  {
    forall i | 0 <= i < 30
      ensures Cell(i) == (Generation.QUIZ_PLAN[i].gameMode, Generation.QUIZ_PLAN[i].level, Generation.QUIZ_PLAN[i].difficulty)
      ensures GetQuizSetNumber(Generation.QUIZ_PLAN[i].gameMode, Generation.QUIZ_PLAN[i].level, Generation.QUIZ_PLAN[i].difficulty) == i + 1
    {
      assert i / 6 < 5 && i % 6 < 6 && 6 * (i / 6) + i % 6 == i;
      PlanCell(i / 6, i % 6);
      CellNumber(i);
    }
  }

  // ---------------------------------------------------------------------
  // organizeQuizSets.
  // ---------------------------------------------------------------------

  /** The lookup key: mode, level and difficulty joined by dashes. */
  function QuizKey(gameMode: string, level: string, difficulty: string): string
  {
    gameMode + "-" + level + "-" + difficulty
  }

  function KeyOf(q: QuizDoc): string
  {
    QuizKey(q.gameMode, q.level, q.difficulty)
  }

  function CellKey(i: nat): string
    requires i < 30
  {
    QuizKey(Cell(i).0, Cell(i).1, Cell(i).2)
  }

  function Dashes(s: string): nat
    decreases |s|
  {
    if |s| == 0 then 0 else Dashes(s[..|s| - 1]) + (if s[|s| - 1] == '-' then 1 else 0)
  }

  lemma {:induction false} DashesConcat(a: string, b: string)
    ensures Dashes(a + b) == Dashes(a) + Dashes(b)
    decreases |b|
  {
    if |b| > 0 {
      assert (a + b)[..|a + b| - 1] == a + b[..|b| - 1];
      DashesConcat(a, b[..|b| - 1]);
    } else {
      assert a + b == a;
    }
  }

  lemma {:induction false} NoDashes(s: string)
    ensures Dashes(s) == 0 <==> '-' !in s
    decreases |s|
  {
    if |s| > 0 {
      var p := s[..|s| - 1];
      NoDashes(p);
      assert s == p + [s[|s| - 1]];
      assert forall c :: c in s <==> c in p || c == s[|s| - 1];
    }
  }

  /** A key holds the dashes of its three fields and the two it adds. */
  lemma KeyDashes(a: string, b: string, c: string)
    ensures Dashes(QuizKey(a, b, c)) == Dashes(a) + Dashes(b) + Dashes(c) + 2
  {
    assert Dashes("-") == 1 by {
      assert "-"[..0] == "";
    }
    DashesConcat(a, "-");
    DashesConcat(a + "-", b);
    DashesConcat(a + "-" + b, "-");
    DashesConcat(a + "-" + b + "-", c);
  }

  /** The position of the first dash, or the length when there is none. */
  function FirstDash(s: string): (r: nat)
    ensures r <= |s|
  {
    if |s| == 0 then 0 else if s[0] == '-' then 0 else 1 + FirstDash(s[1..])
  }

  lemma {:induction false} FirstDashAfter(a: string, b: string)
    requires '-' !in a
    ensures FirstDash(a + "-" + b) == |a|
    decreases |a|
  {
    if |a| > 0 {
      assert a[0] in a;
      assert (a + "-" + b)[1..] == a[1..] + "-" + b;
      assert forall c :: c in a[1..] ==> c in a;
      FirstDashAfter(a[1..], b);
    } else {
      assert a + "-" + b == "-" + b;
    }
  }

  /** Splitting at the first dash: dash-free heads on both sides must coincide. */
  lemma SplitAtDash(a: string, b: string, x: string, y: string)
    requires '-' !in a && '-' !in x
    requires a + "-" + b == x + "-" + y
    ensures a == x && b == y
  {
    var s := a + "-" + b;
    FirstDashAfter(a, b);
    FirstDashAfter(x, y);
    assert a == s[..|a|] && x == (x + "-" + y)[..|x|];
    assert b == s[|a| + 1..] && y == (x + "-" + y)[|x| + 1..];
  }

  /**
   * Two keys are equal only for equal fields when one side's fields hold no
   * dash: the join adds exactly two dashes, so the other side's fields hold
   * none either.
   */
  lemma KeyInjective(a: string, b: string, c: string, x: string, y: string, z: string)
    requires '-' !in x && '-' !in y && '-' !in z
    requires QuizKey(a, b, c) == QuizKey(x, y, z)
    ensures a == x && b == y && c == z
  {
    KeyFieldsDashFree(a, b, c, x, y, z);
    assert a + "-" + b + "-" + c == a + "-" + (b + "-" + c);
    assert x + "-" + y + "-" + z == x + "-" + (y + "-" + z);
    SplitAtDash(a, b + "-" + c, x, y + "-" + z);
    SplitAtDash(b, c, y, z);
  }

  lemma KeyFieldsDashFree(a: string, b: string, c: string, x: string, y: string, z: string)
    requires '-' !in x && '-' !in y && '-' !in z
    requires QuizKey(a, b, c) == QuizKey(x, y, z)
    ensures '-' !in a && '-' !in b
  {
    NoDashes(x); NoDashes(y); NoDashes(z);
    KeyDashes(a, b, c);
    KeyDashes(x, y, z);
    NoDashes(a); NoDashes(b);
  }

  lemma CellsHaveNoDash(i: nat)
    requires i < 30
    ensures '-' !in Cell(i).0 && '-' !in Cell(i).1 && '-' !in Cell(i).2
  {
    assert i / 6 < 5 && i % 6 < 6;
    assert forall k :: 0 <= k < 5 ==> '-' !in SET_GAME_MODES[k] by {
      assert '-' !in "Vocabulary" && '-' !in "Grammar" && '-' !in "Translation";
      assert '-' !in "Sentence Construction" && '-' !in "Reading Comprehension";
    }
    assert forall k :: 0 <= k < 6 ==> '-' !in SET_LEVELS[k] && '-' !in LEVEL_DIFFICULTY[SET_LEVELS[k]];
  }

  /** The lookup Map after inserting the quiz sets in order; a later set with the same key replaces an earlier one. */
  function QuizMap(qs: seq<QuizDoc>): map<string, QuizDoc>
    decreases |qs|
  {
    if |qs| == 0 then map[] else QuizMap(qs[..|qs| - 1])[KeyOf(qs[|qs| - 1]) := qs[|qs| - 1]]
  }

  /** The lookup keys of the 30 cells, in walk order: modes outside, levels inside. */
  function CellKeys(): (r: seq<string>)
    ensures |r| == 30
  {
    seq(30, i requires 0 <= i < 30 => CellKey(i))
  }

  /** Look up each key in order and keep the sets found. */
  function Pick(m: map<string, QuizDoc>, keys: seq<string>): (r: seq<QuizDoc>)
    ensures |r| <= |keys|
    decreases |keys|
  {
    if |keys| == 0 then []
    else
      var last := keys[|keys| - 1];
      Pick(m, keys[..|keys| - 1]) + (if last in m then [m[last]] else [])
  }

  /** The organised list: the lookup Map read at every cell in walk order. */
  function Organized(m: map<string, QuizDoc>): seq<QuizDoc>
  {
    Pick(m, CellKeys())
  }

  /** organizeQuizSets: fill the lookup Map, then walk modes and, inside, levels. */
  method OrganizeQuizSets(quizSets: seq<QuizDoc>) returns (organized: seq<QuizDoc>)
    ensures organized == Organized(QuizMap(quizSets))
  {
    var quizMap: map<string, QuizDoc> := map[];
    var k := 0;
    while k < |quizSets|
      invariant 0 <= k <= |quizSets|
      invariant quizMap == QuizMap(quizSets[..k])
    {
      assert quizSets[..k + 1][..k] == quizSets[..k];
      quizMap := quizMap[KeyOf(quizSets[k]) := quizSets[k]];
      k := k + 1;
    }
    assert quizSets[..k] == quizSets;
    organized := [];
    var m := 0;
    while m < |SET_GAME_MODES|
      invariant 0 <= m <= 5
      invariant organized == Pick(quizMap, CellKeys()[..6 * m])
    {
      CellKeysByMode(m);
      organized := WalkMode(quizMap, m, organized, CellKeys());
      m := m + 1;
    }
    assert CellKeys()[..30] == CellKeys();
  }

  /** The inner loop over levels for game mode `m`, reading the keys `keys[6 * m .. 6 * m + 6]`. */
  method WalkMode(quizMap: map<string, QuizDoc>, m: nat, before: seq<QuizDoc>, ghost keys: seq<string>)
    returns (organized: seq<QuizDoc>)
    requires m < 5 && |keys| == 30 && ModeKeys(keys, m)
    requires before == Pick(quizMap, keys[..6 * m])
    ensures organized == Pick(quizMap, keys[..6 * m + 6])
  {
    organized := before;
    LevelsHaveDifficulty();
    var l := 0;
    while l < |SET_LEVELS|
      invariant 0 <= l <= 6
      invariant organized == Pick(quizMap, keys[..6 * m + l])
    {
      var level := SET_LEVELS[l];
      var key := QuizKey(SET_GAME_MODES[m], level, LEVEL_DIFFICULTY[level]);
      assert keys[..6 * m + l + 1] == keys[..6 * m + l] + [key];
      PickStep(quizMap, keys[..6 * m + l], key);
      if key in quizMap {
        organized := organized + [quizMap[key]];
      }
      l := l + 1;
    }
  }

  /** Keys `6 * m` to `6 * m + 5` are mode `m`'s six levels. */
  ghost predicate ModeKeys(keys: seq<string>, m: nat)
    requires m < 5 && |keys| == 30
  {
    forall l :: 0 <= l < 6 ==> keys[6 * m + l] == QuizKey(SET_GAME_MODES[m], SET_LEVELS[l], LEVEL_DIFFICULTY[SET_LEVELS[l]])
  }

  lemma CellKeysByMode(m: nat)
    requires m < 5
    ensures ModeKeys(CellKeys(), m)
  {
    forall l | 0 <= l < 6
      ensures CellKeys()[6 * m + l] == QuizKey(SET_GAME_MODES[m], SET_LEVELS[l], LEVEL_DIFFICULTY[SET_LEVELS[l]])
    {
      CellOf(m, l);
    }
  }

  lemma LevelsHaveDifficulty()
    ensures forall k :: 0 <= k < |SET_LEVELS| ==> SET_LEVELS[k] in LEVEL_DIFFICULTY
  {
  }

  lemma PickStep(m: map<string, QuizDoc>, keys: seq<string>, key: string)
    ensures Pick(m, keys + [key]) == Pick(m, keys) + (if key in m then [m[key]] else [])
  {
    assert (keys + [key])[..|keys|] == keys;
  }

  /** Every entry of the lookup Map is stored under its own key and is the last input set with that key. */
  lemma {:induction false} QuizMapLast(qs: seq<QuizDoc>, key: string) returns (i: nat)
    requires key in QuizMap(qs)
    ensures i < |qs| && qs[i] == QuizMap(qs)[key] && KeyOf(qs[i]) == key
    ensures forall j :: i < j < |qs| ==> KeyOf(qs[j]) != key
    decreases |qs|
  {
    var n := |qs| - 1;
    if KeyOf(qs[n]) == key {
      i := n;
    } else {
      i := QuizMapLast(qs[..n], key);
      assert qs[..n][i] == qs[i];
      assert forall j :: i < j < n ==> qs[..n][j] == qs[j];
    }
  }

  /** Every input set's key is in the lookup Map. */
  lemma {:induction false} QuizMapHasKeys(qs: seq<QuizDoc>, i: nat)
    requires i < |qs|
    ensures KeyOf(qs[i]) in QuizMap(qs)
    decreases |qs|
  {
    if i < |qs| - 1 {
      QuizMapHasKeys(qs[..|qs| - 1], i);
      assert qs[..|qs| - 1][i] == qs[i];
    }
  }

  /** The positions of the keys that are present, in order: one per element of the picked list. */
  ghost function Slots(m: map<string, QuizDoc>, keys: seq<string>): seq<nat>
    decreases |keys|
  {
    if |keys| == 0 then []
    else Slots(m, keys[..|keys| - 1]) + (if keys[|keys| - 1] in m then [|keys| - 1] else [])
  }

  lemma {:induction false} SlotsShape(m: map<string, QuizDoc>, keys: seq<string>)
    ensures |Slots(m, keys)| == |Pick(m, keys)|
    ensures forall k :: 0 <= k < |Slots(m, keys)| ==>
      && Slots(m, keys)[k] < |keys| && keys[Slots(m, keys)[k]] in m
      && Pick(m, keys)[k] == m[keys[Slots(m, keys)[k]]]
    ensures forall j, k :: 0 <= j < k < |Slots(m, keys)| ==> Slots(m, keys)[j] < Slots(m, keys)[k]
    decreases |keys|
  {
    if |keys| > 0 {
      var pre := keys[..|keys| - 1];
      SlotsShape(m, pre);
      assert forall i :: 0 <= i < |pre| ==> pre[i] == keys[i];
    }
  }

  /** A key that is present is picked. */
  lemma {:induction false} PickFinds(m: map<string, QuizDoc>, keys: seq<string>, c: nat) returns (k: nat)
    requires c < |keys| && keys[c] in m
    ensures k < |Pick(m, keys)| && Pick(m, keys)[k] == m[keys[c]]
    decreases |keys|
  {
    var pre := keys[..|keys| - 1];
    if c == |keys| - 1 {
      k := |Pick(m, pre)|;
    } else {
      assert pre[c] == keys[c];
      k := PickFinds(m, pre, c);
    }
  }

  /** Reading fewer keys gives a prefix of the list. */
  lemma {:induction false} PickPrefix(m: map<string, QuizDoc>, keys: seq<string>, n: nat)
    requires n <= |keys|
    ensures Pick(m, keys[..n]) <= Pick(m, keys)
    decreases |keys| - n
  {
    if n < |keys| {
      var pre := keys[..|keys| - 1];
      assert pre[..n] == keys[..n];
      PickPrefix(m, pre, n);
    } else {
      assert keys[..n] == keys;
    }
  }

  /** A set that sits in lookup cell `c` carries exactly that cell's mode, level and difficulty, so its number is `c + 1`. */
  lemma InCell(q: QuizDoc, c: nat)
    requires c < 30 && KeyOf(q) == CellKey(c)
    ensures (q.gameMode, q.level, q.difficulty) == Cell(c)
    ensures GetQuizSetNumber(q.gameMode, q.level, q.difficulty) == c + 1
  {
    CellsHaveNoDash(c);
    KeyInjective(q.gameMode, q.level, q.difficulty, Cell(c).0, Cell(c).1, Cell(c).2);
    CellNumber(c);
  }

  /** One element of the organised list: a known cell's fields, that cell's number, and the Map's entry for its key. */
  lemma OrganizedEntry(qs: seq<QuizDoc>, k: nat)
    requires k < |Organized(QuizMap(qs))|
    ensures var o := Organized(QuizMap(qs))[k];
      && o.gameMode in SET_GAME_MODES && o.level in SET_LEVELS
      && o.level in LEVEL_DIFFICULTY && o.difficulty == LEVEL_DIFFICULTY[o.level]
      && KeyOf(o) in QuizMap(qs) && o == QuizMap(qs)[KeyOf(o)]
      && k < |Slots(QuizMap(qs), CellKeys())|
      && GetQuizSetNumber(o.gameMode, o.level, o.difficulty) == Slots(QuizMap(qs), CellKeys())[k] + 1
  {
    var m := QuizMap(qs);
    SlotsShape(m, CellKeys());
    var c := Slots(m, CellKeys())[k];
    assert CellKeys()[c] == CellKey(c);
    var i := QuizMapLast(qs, CellKey(c));
    InCell(m[CellKey(c)], c);
    CellFields(c);
  }

  /**
   * The organised list holds at most 30 sets, each a known mode and level
   * with that level's difficulty and each the Map's entry for its key, in
   * strictly increasing set number, so ordered by mode and then by level.
   */
  lemma OrganizedShape(qs: seq<QuizDoc>)
    ensures var out := Organized(QuizMap(qs));
      && |out| <= 30
      && (forall k :: 0 <= k < |out| ==>
            && out[k].gameMode in SET_GAME_MODES && out[k].level in SET_LEVELS
            && out[k].level in LEVEL_DIFFICULTY && out[k].difficulty == LEVEL_DIFFICULTY[out[k].level]
            && KeyOf(out[k]) in QuizMap(qs) && out[k] == QuizMap(qs)[KeyOf(out[k])])
      && (forall j, k :: 0 <= j < k < |out| ==>
            GetQuizSetNumber(out[j].gameMode, out[j].level, out[j].difficulty)
              < GetQuizSetNumber(out[k].gameMode, out[k].level, out[k].difficulty))
  {
    var out := Organized(QuizMap(qs));
    SlotsShape(QuizMap(qs), CellKeys());
    forall k | 0 <= k < |out|
      ensures && out[k].gameMode in SET_GAME_MODES && out[k].level in SET_LEVELS
              && out[k].level in LEVEL_DIFFICULTY && out[k].difficulty == LEVEL_DIFFICULTY[out[k].level]
              && KeyOf(out[k]) in QuizMap(qs) && out[k] == QuizMap(qs)[KeyOf(out[k])]
    {
      OrganizedEntry(qs, k);
    }
    forall j, k | 0 <= j < k < |out|
      ensures GetQuizSetNumber(out[j].gameMode, out[j].level, out[j].difficulty)
            < GetQuizSetNumber(out[k].gameMode, out[k].level, out[k].difficulty)
    {
      OrganizedEntry(qs, j);
      OrganizedEntry(qs, k);
    }
  }

  /**
   * Nothing that fits a cell is lost: an input set with a known mode and
   * level and that level's difficulty is represented in the output by the
   * last input set of the same cell.
   */
  lemma OrganizedComplete(qs: seq<QuizDoc>, i: nat) returns (k: nat)
    requires i < |qs| && qs[i].gameMode in SET_GAME_MODES && qs[i].level in SET_LEVELS
    requires qs[i].level in LEVEL_DIFFICULTY && qs[i].difficulty == LEVEL_DIFFICULTY[qs[i].level]
    ensures k < |Organized(QuizMap(qs))|
    ensures KeyOf(qs[i]) in QuizMap(qs) && Organized(QuizMap(qs))[k] == QuizMap(qs)[KeyOf(qs[i])]
    ensures var o := Organized(QuizMap(qs))[k];
      o.gameMode == qs[i].gameMode && o.level == qs[i].level && o.difficulty == qs[i].difficulty
  {
    var m := QuizMap(qs);
    var c := KnownCell(qs[i]);
    assert CellKeys()[c] == CellKey(c);
    QuizMapHasKeys(qs, i);
    k := PickFinds(m, CellKeys(), c);
    var j := QuizMapLast(qs, CellKey(c));
    InCell(m[CellKey(c)], c);
    InCell(qs[i], c);
  }

  /** A set with a known mode and level and that level's difficulty sits in some lookup cell. */
  lemma KnownCell(q: QuizDoc) returns (c: nat)
    requires q.gameMode in SET_GAME_MODES && q.level in SET_LEVELS
    requires q.level in LEVEL_DIFFICULTY && q.difficulty == LEVEL_DIFFICULTY[q.level]
    ensures c < 30 && KeyOf(q) == CellKey(c)
  {
    var mi :| 0 <= mi < 5 && SET_GAME_MODES[mi] == q.gameMode;
    var li :| 0 <= li < 6 && SET_LEVELS[li] == q.level;
    CellOf(mi, li);
    c := 6 * mi + li;
  }
}
