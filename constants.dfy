/** The shared constant tables: interests, game modes, CEFR levels and the level-to-difficulty map. */
module Constants {

  const INTERESTS: seq<string> := [
    "Adventure Stories",
    "Friendship",
    "Fantasy & Magic",
    "Music & Arts",
    "Sports & Games",
    "Nature & Animals",
    "Filipino Culture",
    "Family Values"
  ]

  const GAME_MODES: seq<string> := [
    "Vocabulary",
    "Grammar",
    "Translation",
    "Sentence Construction",
    "Reading Comprehension"
  ]

  const CEFR_LEVELS: seq<string> := ["A1", "A2", "B1", "B2", "C1", "C2"]

  const DIFFICULTY_BY_LEVEL: map<string, string> := map[
    "A1" := "easy",
    "A2" := "easy",
    "B1" := "medium",
    "B2" := "medium",
    "C1" := "hard",
    "C2" := "hard"
  ]

  predicate Distinct<T(==)>(s: seq<T>)
  {
    forall i, j :: 0 <= i < j < |s| ==> s[i] != s[j]
  }

  /** The three tables list 8, 5 and 6 values, each without repetition. */
  lemma TablesAreDistinct()
    ensures |INTERESTS| == 8 && Distinct(INTERESTS)
    ensures |GAME_MODES| == 5 && Distinct(GAME_MODES)
    ensures |CEFR_LEVELS| == 6 && Distinct(CEFR_LEVELS)
  {
  }

  /** The difficulty map covers exactly the six levels and pairs them two by two. */
  lemma DifficultyByLevelShape()
    ensures DIFFICULTY_BY_LEVEL.Keys == set l | l in CEFR_LEVELS
    ensures forall i :: 0 <= i < 6 ==>
      DIFFICULTY_BY_LEVEL[CEFR_LEVELS[i]] == ["easy", "medium", "hard"][i / 2]
  {
    forall i | 0 <= i < 6
      ensures DIFFICULTY_BY_LEVEL[CEFR_LEVELS[i]] == ["easy", "medium", "hard"][i / 2]
    {
      if i == 0 {} else if i == 1 {} else if i == 2 {} else if i == 3 {} else if i == 4 {} else {}
    }
  }
}
