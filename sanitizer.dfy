/**
 * Cleaning and validation of raw generator text: code-fence removal, the
 * three regular-expression rewrites, JSON parsing with one recovery attempt,
 * extraction of the question array and per-item type checking and
 * capitalisation. `JSON.parse` is the parameter `parse`, a partial function.
 */
module Sanitizer {

  import opened Wrappers
  import opened JsLib

  /** The errors a single validation attempt can raise. */
  datatype GenError =
    | InvalidJson                 // no `[...]` span to recover from
    | UnrecoverableJson           // the recovered span does not parse either
    | InvalidQuestionFormat
    | ItemTypeError               // a property access or method call on the wrong kind of value
    | InvalidQuestionCount(count: nat)
    | UnsupportedGameMode(mode: string)
    | Upstream(message: string)   // the text-completion call itself failed

  // ---------------------------------------------------------------------
  // Code fences: /```(?:json)?\s*([\s\S]*?)\s*```/g replaced by "$1", then trim.
  // ---------------------------------------------------------------------

  predicate FenceAt(s: string, i: nat)
  {
    i + 3 <= |s| && s[i] == '`' && s[i + 1] == '`' && s[i + 2] == '`'
  }

  predicate NoFence(s: string)
  {
    forall k :: 0 <= k < |s| ==> !FenceAt(s, k)
  }

  /** The first fence at or after `from`. */
  function FirstFence(s: string, from: nat): (r: Option<nat>)
    decreases |s| - from
    ensures r.Some? ==> from <= r.value && FenceAt(s, r.value)
    ensures r.Some? ==> forall k: nat :: from <= k < r.value ==> !FenceAt(s, k)
    ensures r.None? ==> forall k: nat :: from <= k ==> !FenceAt(s, k)
  {
    if from + 3 > |s| then None
    else if FenceAt(s, from) then Some(from)
    else FirstFence(s, from + 1)
  }

  /**
   * One global replacement pass. The leftmost fence opens a match; the
   * optional `json` tag and the white space after it are skipped; the lazy
   * group ends where the white space before the next fence begins. When the
   * first fence has no closing fence, no later position can match either, so
   * the pass stops there.
   */
  function StripFences(s: string): (r: string)
    decreases |s|
  {
    match FirstFence(s, 0)
    case None => s
    case Some(i) =>
      var c := GroupStart(s, i);
      match FirstFence(s, c)
      case None => s
      case Some(q) => s[..i] + s[c..GroupEnd(s, c, q)] + StripFences(s[q + 3..])
  }

  /** Where the group starts after the fence at `i`: past the optional `json` tag and the white space after it. */
  function GroupStart(s: string, i: nat): (c: nat)
    requires i + 3 <= |s|
    ensures i + 3 <= c <= |s|
  {
    var afterTag := if i + 7 <= |s| && s[i + 3..i + 7] == "json" then i + 7 else i + 3;
    afterTag + LeadingSpace(s[afterTag..])
  }

  /** Where the lazy group ends before the fence at `q`: at the white space in front of it. */
  function GroupEnd(s: string, c: nat, q: nat): (p: nat)
    requires c <= q <= |s|
    ensures c <= p <= q
  {
    q - TrailingSpace(s[c..q])
  }

  /** cleanJSONResponse. */
  function CleanJsonResponse(raw: string): string
  {
    Trim(StripFences(raw))
  }

  /** The text a generator produces when it wraps its answer in a ```json fence. */
  function Fenced(body: string): string
  {
    "```json\n" + body + "\n```"
  }

  /** A body with no fence inside and no white space at either end. */
  predicate CleanBody(body: string)
  {
    |body| > 0 && NoFence(body) && !IsSpace(body[0]) && !IsSpace(body[|body| - 1])
  }

  lemma StripFencesNoFence(s: string)
    requires NoFence(s)
    ensures StripFences(s) == s
  {
    assert FirstFence(s, 0).None?;
  }

  lemma TrimOfTrimmed(s: string)
    requires |s| > 0 && !IsSpace(s[0]) && !IsSpace(s[|s| - 1])
    ensures Trim(s) == s
  {
    assert LeadingSpace(s) == 0;
    assert s[0..] == s;
    assert TrailingSpace(s) == 0;
  }

  /** The opening fence of `Fenced(body)` is at 0 and its tag and newline end at 8. */
  lemma FencedOpening(body: string)
    requires CleanBody(body)
    ensures FirstFence(Fenced(body), 0) == Some(0)
    ensures Fenced(body)[3..7] == "json"
    ensures LeadingSpace(Fenced(body)[7..]) == 1
  {
    var s := Fenced(body);
    assert FenceAt(s, 0);
    assert s[7..] == "\n" + body + "\n```";
    assert IsSpace(s[7..][0]);
    assert s[7..][1..][0] == body[0];
  }

  /** The closing fence of `Fenced(body)` is the first one after the body starts. */
  lemma FencedClosing(body: string)
    requires CleanBody(body)
    ensures FirstFence(Fenced(body), 8) == Some(|body| + 9)
  {
    var s := Fenced(body);
    var n := |body|;
    forall k: nat | 8 <= k < n + 9
      ensures !FenceAt(s, k)
    {
      if k + 3 <= n + 8 {
        assert s[k] == body[k - 8] && s[k + 1] == body[k - 7] && s[k + 2] == body[k - 6];
        assert !FenceAt(body, k - 8);
      } else {
        assert s[n + 8] == '\n';
      }
    }
    assert FenceAt(s, n + 9);
  }

  /** Between the fences lie the body and one newline. */
  lemma FencedGroup(body: string)
    requires CleanBody(body)
    ensures TrailingSpace(Fenced(body)[8..|body| + 9]) == 1
    ensures Fenced(body)[8..|body| + 8] == body
    ensures Fenced(body)[..0] + body + Fenced(body)[|body| + 12..] == body
  {
    var s := Fenced(body);
    var t := s[8..|body| + 9];
    assert t == body + "\n";
    assert t[..|t| - 1] == body;
    assert TrailingSpace(body) == 0;
    assert s[|body| + 12..] == "";
  }

  /** Removing a ```json fence yields exactly the body it wraps. */
  lemma CleanFenced(body: string)
    requires CleanBody(body)
    ensures StripFences(Fenced(body)) == body
    ensures CleanJsonResponse(Fenced(body)) == body
  {
    FencedOpening(body);
    FencedClosing(body);
    FencedGroup(body);
    var s := Fenced(body);
    assert GroupStart(s, 0) == 8;
    assert GroupEnd(s, 8, |body| + 9) == |body| + 8;
    var rest := s[|body| + 12..];
    assert rest == "";
    assert StripFences(rest) == "";
    assert StripFences(s) == s[..0] + s[8..|body| + 8] + StripFences(rest);
    TrimOfTrimmed(body);
  }

  // ---------------------------------------------------------------------
  // The rewrites of sanitizeJSON.
  // ---------------------------------------------------------------------

  /** `s` opens with "]", a run of white space and "[". */
  predicate ArraysMeet(s: string)
  {
    |s| > 0 && s[0] == ']' && 1 + LeadingSpace(s[1..]) < |s| && s[1 + LeadingSpace(s[1..])] == '['
  }

  /** /\]\s*\[/g replaced by ",": adjacent arrays are merged into one. */
  function MergeAdjacentArrays(s: string): string
    decreases |s|
  {
    if |s| == 0 then ""
    else if ArraysMeet(s) then "," + MergeAdjacentArrays(s[2 + LeadingSpace(s[1..])..])
    else [s[0]] + MergeAdjacentArrays(s[1..])
  }

  predicate IsCloser(c: char)
  {
    c == '}' || c == ']'
  }

  /** `s` opens with ",", a run of white space and a closer. */
  predicate CommaBeforeCloser(s: string)
  {
    |s| > 0 && s[0] == ',' && 1 + LeadingSpace(s[1..]) < |s| && IsCloser(s[1 + LeadingSpace(s[1..])])
  }

  /** /,\s*([}\]])/g replaced by "$1": a trailing comma before a closer is dropped. */
  function DropTrailingCommas(s: string): string
    decreases |s|
  {
    if |s| == 0 then ""
    else if CommaBeforeCloser(s) then
      [s[1 + LeadingSpace(s[1..])]] + DropTrailingCommas(s[2 + LeadingSpace(s[1..])..])
    else [s[0]] + DropTrailingCommas(s[1..])
  }

  /** Replacement of every character of a class by one character. */
  function ReplaceChars(s: string, cls: set<char>, repl: char): (r: string)
    ensures |r| == |s|
    ensures forall i :: 0 <= i < |s| ==> r[i] == if s[i] in cls then repl else s[i]
  {
    if |s| == 0 then "" else [if s[0] in cls then repl else s[0]] + ReplaceChars(s[1..], cls, repl)
  }

  /**
   * sanitizeJSON: fences, adjacent arrays, trailing commas, then the quote
   * normalisation. As written, both quote classes hold only the straight
   * quote they are replaced by.
   */
  function SanitizeJson(raw: string): string
  {
    var fixed := DropTrailingCommas(MergeAdjacentArrays(CleanJsonResponse(raw)));
    ReplaceChars(ReplaceChars(fixed, {'"'}, '"'), {'\''}, '\'')
  }

  /** The quote normalisation as written leaves every string unchanged. */
  lemma QuoteNormalisationIsIdentity(s: string)
    ensures ReplaceChars(ReplaceChars(s, {'"'}, '"'), {'\''}, '\'') == s
  {
  }

  lemma SpacesThenChar(w: string, c: char, rest: string)
    requires forall i :: 0 <= i < |w| ==> IsSpace(w[i])
    requires !IsSpace(c)
    ensures LeadingSpace(w + [c] + rest) == |w|
  {
    if |w| > 0 {
      assert (w + [c] + rest)[1..] == w[1..] + [c] + rest;
      SpacesThenChar(w[1..], c, rest);
    } else {
      assert (w + [c] + rest)[0] == c;
    }
  }

  lemma SpaceRunStopsAt(pre: string, tail: string)
    requires |tail| > 0 && !IsSpace(tail[0])
    ensures LeadingSpace(pre + tail) <= |pre|
    ensures LeadingSpace(pre + tail) < |pre| ==> LeadingSpace(pre + tail) == LeadingSpace(pre)
    ensures LeadingSpace(pre + tail) == |pre| ==> LeadingSpace(pre) == |pre|
  {
    if |pre| > 0 {
      assert (pre + tail)[1..] == pre[1..] + tail;
      SpaceRunStopsAt(pre[1..], tail);
    }
  }

  /**
   * Scanning `pre` is not disturbed by a following ",": a comma in `pre`
   * whose white space runs into that comma sees no closer, exactly as when
   * it runs into the end of `pre`.
   */
  lemma {:induction false} DropBeforeComma(pre: string, tail: string)
    requires |tail| > 0 && tail[0] == ','
    ensures DropTrailingCommas(pre + tail) == DropTrailingCommas(pre) + DropTrailingCommas(tail)
    decreases |pre|
  {
    if |pre| > 0 {
      DropStep(pre, tail);
      var w := LeadingSpace(pre[1..]);
      if CommaBeforeCloser(pre) {
        var rest := pre[2 + w..];
        DropBeforeComma(rest, tail);
        assert [pre[1 + w]] + (DropTrailingCommas(rest) + DropTrailingCommas(tail))
            == ([pre[1 + w]] + DropTrailingCommas(rest)) + DropTrailingCommas(tail);
      } else {
        var rest := pre[1..];
        DropBeforeComma(rest, tail);
        assert [pre[0]] + (DropTrailingCommas(rest) + DropTrailingCommas(tail))
            == ([pre[0]] + DropTrailingCommas(rest)) + DropTrailingCommas(tail);
      }
    } else {
      assert pre + tail == tail;
    }
  }

  /**
   * The test the trailing-comma scan makes at the head of `pre + tail`
   * succeeds exactly when it succeeds at the head of `pre`, and then it
   * finds the same closer.
   */
  lemma DropTestAgrees(pre: string, tail: string)
    requires |pre| > 0 && |tail| > 0 && tail[0] == ','
    ensures var s := pre + tail;
      && s[0] == pre[0]
      && (CommaBeforeCloser(s) <==> CommaBeforeCloser(pre))
      && (CommaBeforeCloser(pre) ==>
            LeadingSpace(s[1..]) == LeadingSpace(pre[1..]) && s[1 + LeadingSpace(s[1..])] == pre[1 + LeadingSpace(pre[1..])])
  {
    var s := pre + tail;
    assert s[1..] == pre[1..] + tail;
    SpaceRunStopsAt(pre[1..], tail);
    var w := LeadingSpace(s[1..]);
    if w == |pre| - 1 {
      assert s[1 + w] == tail[0];
    } else {
      assert s[1 + w] == pre[1 + w];
    }
  }

  /** One step of the trailing-comma scan over `pre + tail` is the step it takes over `pre`. */
  lemma DropStep(pre: string, tail: string)
    requires |pre| > 0 && |tail| > 0 && tail[0] == ','
    ensures var w := LeadingSpace(pre[1..]);
      DropTrailingCommas(pre + tail)
        == if CommaBeforeCloser(pre) then [pre[1 + w]] + DropTrailingCommas(pre[2 + w..] + tail)
           else [pre[0]] + DropTrailingCommas(pre[1..] + tail)
    ensures var w := LeadingSpace(pre[1..]);
      DropTrailingCommas(pre)
        == if CommaBeforeCloser(pre) then [pre[1 + w]] + DropTrailingCommas(pre[2 + w..])
           else [pre[0]] + DropTrailingCommas(pre[1..])
  {
    DropTestAgrees(pre, tail);
    var w := LeadingSpace(pre[1..]);
    if CommaBeforeCloser(pre) {
      DropOfConcat(pre, tail, 2 + w);
    } else {
      DropOfConcat(pre, tail, 1);
    }
  }

  lemma DropAtComma(w: string, closer: char, post: string)
    requires forall i :: 0 <= i < |w| ==> IsSpace(w[i])
    requires IsCloser(closer)
    ensures DropTrailingCommas([','] + w + [closer] + post) == [closer] + DropTrailingCommas(post)
  {
    var tail := [','] + w + [closer] + post;
    assert tail[1..] == w + [closer] + post;
    SpacesThenChar(w, closer, post);
    assert tail[1 + |w|] == closer;
    assert tail[2 + |w|..] == post;
  }

  /** A comma followed by white space and a closer is removed, and nothing else around it changes. */
  lemma TrailingCommaRemoved(pre: string, w: string, closer: char, post: string)
    requires forall i :: 0 <= i < |w| ==> IsSpace(w[i])
    requires IsCloser(closer)
    ensures DropTrailingCommas(pre + [','] + w + [closer] + post)
         == DropTrailingCommas(pre) + [closer] + DropTrailingCommas(post)
  {
    var tail := [','] + w + [closer] + post;
    assert pre + [','] + w + [closer] + post == pre + tail;
    DropBeforeComma(pre, tail);
    DropAtComma(w, closer, post);
  }

  /** Dropping a prefix that lies inside `a` from `a + b`. */
  lemma DropOfConcat(a: string, b: string, k: nat)
    requires k <= |a|
    ensures (a + b)[k..] == a[k..] + b
  {
  }

  /** Scanning `pre` is not disturbed by a following "]", which is not the "[" a merge needs. */
  lemma {:induction false} MergeBeforeBracket(pre: string, tail: string)
    requires |tail| > 0 && tail[0] == ']'
    ensures MergeAdjacentArrays(pre + tail) == MergeAdjacentArrays(pre) + MergeAdjacentArrays(tail)
    decreases |pre|
  {
    if |pre| > 0 {
      MergeStep(pre, tail);
      var w := LeadingSpace(pre[1..]);
      if ArraysMeet(pre) {
        var rest := pre[2 + w..];
        MergeBeforeBracket(rest, tail);
        assert "," + (MergeAdjacentArrays(rest) + MergeAdjacentArrays(tail))
            == ("," + MergeAdjacentArrays(rest)) + MergeAdjacentArrays(tail);
      } else {
        var rest := pre[1..];
        MergeBeforeBracket(rest, tail);
        assert [pre[0]] + (MergeAdjacentArrays(rest) + MergeAdjacentArrays(tail))
            == ([pre[0]] + MergeAdjacentArrays(rest)) + MergeAdjacentArrays(tail);
      }
    } else {
      assert pre + tail == tail;
    }
  }

  /**
   * The test the array-merge scan makes at the head of `pre + tail`
   * succeeds exactly when it succeeds at the head of `pre`, over the same
   * run of white space.
   */
  lemma MergeTestAgrees(pre: string, tail: string)
    requires |pre| > 0 && |tail| > 0 && tail[0] == ']'
    ensures var s := pre + tail;
      && s[0] == pre[0]
      && (ArraysMeet(s) <==> ArraysMeet(pre))
      && (ArraysMeet(pre) ==> LeadingSpace(s[1..]) == LeadingSpace(pre[1..]))
  {
    var s := pre + tail;
    assert s[1..] == pre[1..] + tail;
    SpaceRunStopsAt(pre[1..], tail);
    var w := LeadingSpace(s[1..]);
    if w == |pre| - 1 {
      assert s[1 + w] == tail[0];
    } else {
      assert s[1 + w] == pre[1 + w];
    }
  }

  /** One step of the merging scan over `pre + tail` is the step it takes over `pre`. */
  lemma MergeStep(pre: string, tail: string)
    requires |pre| > 0 && |tail| > 0 && tail[0] == ']'
    ensures var w := LeadingSpace(pre[1..]);
      MergeAdjacentArrays(pre + tail)
        == if ArraysMeet(pre) then "," + MergeAdjacentArrays(pre[2 + w..] + tail)
           else [pre[0]] + MergeAdjacentArrays(pre[1..] + tail)
    ensures var w := LeadingSpace(pre[1..]);
      MergeAdjacentArrays(pre)
        == if ArraysMeet(pre) then "," + MergeAdjacentArrays(pre[2 + w..])
           else [pre[0]] + MergeAdjacentArrays(pre[1..])
  {
    MergeTestAgrees(pre, tail);
    var w := LeadingSpace(pre[1..]);
    if ArraysMeet(pre) {
      DropOfConcat(pre, tail, 2 + w);
    } else {
      DropOfConcat(pre, tail, 1);
    }
  }

  lemma MergeAtBracket(w: string, post: string)
    requires forall i :: 0 <= i < |w| ==> IsSpace(w[i])
    ensures MergeAdjacentArrays("]" + w + "[" + post) == "," + MergeAdjacentArrays(post)
  {
    var tail := "]" + w + "[" + post;
    assert tail[1..] == w + "[" + post;
    SpacesThenChar(w, '[', post);
    assert tail[1 + |w|] == '[';
    assert tail[2 + |w|..] == post;
  }

  /** "] [" between two arrays becomes ",", and nothing else around it changes. */
  lemma AdjacentArraysMerged(pre: string, w: string, post: string)
    requires forall i :: 0 <= i < |w| ==> IsSpace(w[i])
    ensures MergeAdjacentArrays(pre + "]" + w + "[" + post)
         == MergeAdjacentArrays(pre) + "," + MergeAdjacentArrays(post)
  {
    var tail := "]" + w + "[" + post;
    assert pre + "]" + w + "[" + post == pre + tail;
    MergeBeforeBracket(pre, tail);
    MergeAtBracket(w, post);
  }

  // ---------------------------------------------------------------------
  // Parsing with recovery, and extraction.
  // ---------------------------------------------------------------------

  function FirstIndexOf(s: string, c: char): (r: Option<nat>)
    ensures r.Some? ==> r.value < |s| && s[r.value] == c && forall k :: 0 <= k < r.value ==> s[k] != c
    ensures r.None? ==> forall k :: 0 <= k < |s| ==> s[k] != c
  {
    if |s| == 0 then None
    else if s[0] == c then Some(0)
    else match FirstIndexOf(s[1..], c)
      case None => None
      case Some(k) => Some(k + 1)
  }

  function LastIndexOf(s: string, c: char): (r: Option<nat>)
    ensures r.Some? ==> r.value < |s| && s[r.value] == c && forall k :: r.value < k < |s| ==> s[k] != c
    ensures r.None? ==> forall k :: 0 <= k < |s| ==> s[k] != c
  {
    if |s| == 0 then None
    else if s[|s| - 1] == c then Some(|s| - 1)
    else LastIndexOf(s[..|s| - 1], c)
  }

  /**
   * The match of /\[[\s\S]*\]/: from the first "[" to the last "]" after it.
   * Without a "]" after the first "[" there is no match at any position.
   */
  function ArraySpan(s: string): (r: Option<string>)
    ensures r.Some? ==> |r.value| >= 2 && r.value[0] == '[' && r.value[|r.value| - 1] == ']'
    ensures r.None? <==> (FirstIndexOf(s, '[').None? || LastIndexOf(s, ']').None?
                          || LastIndexOf(s, ']').value < FirstIndexOf(s, '[').value)
    ensures r.Some? ==> r.value == s[FirstIndexOf(s, '[').value..LastIndexOf(s, ']').value + 1]
  {
    match FirstIndexOf(s, '[')
    case None => None
    case Some(f) =>
      match LastIndexOf(s, ']')
      case None => None
      case Some(l) =>
        if l < f then None
        else Some(s[f..l + 1])
  }

  /** JSON.parse, and on failure one retry on the bracketed span with trailing commas removed. */
  function ParseWithRecovery(cleaned: string, parse: string -> Option<Json>): (r: Result<Json, GenError>)
    ensures parse(cleaned).Some? ==> r == Ok(parse(cleaned).value)
    ensures parse(cleaned).None? && ArraySpan(cleaned).None? ==> r == Err(InvalidJson)
    ensures parse(cleaned).None? && ArraySpan(cleaned).Some? ==>
      r == (match parse(DropTrailingCommas(ArraySpan(cleaned).value))
            case Some(j) => Ok(j)
            case None => Err(UnrecoverableJson))
  {
    match parse(cleaned)
    case Some(j) => Ok(j)
    case None =>
      match ArraySpan(cleaned)
      case None => Err(InvalidJson)
      case Some(span) =>
        match parse(DropTrailingCommas(span))
        case Some(j) => Ok(j)
        case None => Err(UnrecoverableJson)
  }

  /** The object has an array under `key`. */
  predicate ArrayField(j: Json, key: string)
  {
    Field(j, key).Some? && Field(j, key).value.JArr?
  }

  /** extractQuestions: a bare array, else `.quiz`, else `.questions`, else the empty array. */
  function ExtractQuestions(parsed: Json): (r: seq<Json>)
    ensures parsed.JArr? ==> r == parsed.items
    ensures !parsed.JArr? && Field(parsed, "quiz").Some? && Field(parsed, "quiz").value.JArr? ==>
      r == Field(parsed, "quiz").value.items
    ensures !parsed.JArr? && !ArrayField(parsed, "quiz") && ArrayField(parsed, "questions") ==>
      r == Field(parsed, "questions").value.items
    ensures !parsed.JArr? && !ArrayField(parsed, "quiz") && !ArrayField(parsed, "questions") ==> r == []
    ensures r != [] ==> parsed.JArr? || Field(parsed, "quiz").Some? || Field(parsed, "questions").Some?
  {
    if parsed.JArr? then parsed.items
    else match Field(parsed, "quiz")
      case Some(JArr(items)) => items
      case _ =>
        match Field(parsed, "questions")
        case Some(JArr(items)) => items
        case _ => []
  }

  /**
   * Extraction undoes each of the three wrappings a model answer may use:
   * the bare array, `{"quiz": [...]}` and `{"questions": [...]}`; when both
   * keys hold arrays `quiz` wins, and a value of any other shape yields [].
   */
  lemma ExtractUnwraps(items: seq<Json>, other: seq<Json>, rest: map<string, Json>)
    ensures ExtractQuestions(JArr(items)) == items
    ensures ExtractQuestions(JObj(rest["quiz" := JArr(items)])) == items
    ensures "quiz" !in rest ==> ExtractQuestions(JObj(rest["questions" := JArr(items)])) == items
    ensures ExtractQuestions(JObj(rest["questions" := JArr(other)]["quiz" := JArr(items)])) == items
    ensures ExtractQuestions(JNull) == [] && ExtractQuestions(JStr("")) == [] && ExtractQuestions(JObj(map[])) == []
  {
  }

  // ---------------------------------------------------------------------
  // Per-item validation and formatting.
  // ---------------------------------------------------------------------

  /** capitalizeFirstLetter over ASCII: the empty string is returned as it is. */
  function CapitalizeFirstLetter(text: string): (r: string)
    ensures |r| == |text|
    ensures text == "" ==> r == ""
    ensures |text| > 0 ==> r[0] == UpperAscii(text[0]) && r[1..] == text[1..]
  {
    if text == "" then text else [UpperAscii(text[0])] + text[1..]
  }

  lemma CapitalizeIdempotent(text: string)
    ensures CapitalizeFirstLetter(CapitalizeFirstLetter(text)) == CapitalizeFirstLetter(text)
  {
    if text != "" {
      var once := CapitalizeFirstLetter(text);
      assert once[1..] == text[1..];
      assert UpperAscii(UpperAscii(text[0])) == UpperAscii(text[0]);
      assert CapitalizeFirstLetter(once) == [UpperAscii(once[0])] + once[1..];
    }
  }

  /** `q.question`, joined with spaces when it is an array. */
  function NormalizedQuestion(q: Json): Option<Json>
  {
    match Field(q, "question")
    case Some(JArr(parts)) => Some(JStr(JoinJson(parts, " ")))
    case other => other
  }

  /** The type test of validateAndFormatQuestions, on a non-null item. */
  predicate WellTyped(q: Json)
  {
    && NormalizedQuestion(q).Some? && NormalizedQuestion(q).value.JStr?
    && Field(q, "options").Some? && Field(q, "options").value.JArr? && |Field(q, "options").value.items| == 4
    && Field(q, "correctIndex").Some? && Field(q, "correctIndex").value.JNum?
    && Field(q, "explanation").Some? && Field(q, "explanation").value.JStr?
    && Field(q, "clue").Some? && Field(q, "clue").value.JStr?
  }

  /**
   * capitalizeFirstLetter applied to an option of any kind: a string is
   * capitalised, a falsy value is returned as it is, and any other value has
   * no `charAt`, which throws.
   */
  function FormatOption(opt: Json): Option<Json>
  {
    if opt.JStr? then Some(JStr(CapitalizeFirstLetter(opt.s)))
    else if !Truthy(opt) then Some(opt)
    else None
  }

  function FormatOptions(opts: seq<Json>): (r: Option<seq<Json>>)
    ensures r.Some? <==> forall i :: 0 <= i < |opts| ==> FormatOption(opts[i]).Some?
    ensures r.Some? ==> |r.value| == |opts| && forall i :: 0 <= i < |opts| ==> r.value[i] == FormatOption(opts[i]).value
  {
    if |opts| == 0 then Some([])
    else
      var head := FormatOption(opts[0]);
      var rest := FormatOptions(opts[1..]);
      if head.None? then None
      else if rest.None? then
        assert forall i :: 0 <= i < |opts[1..]| ==> opts[1..][i] == opts[i + 1];
        None
      else Some([head.value] + rest.value)
  }

  /** One item of validateAndFormatQuestions' map: type test, then `{...q, capitalised fields}`. */
  function FormatQuestion(q: Json): (r: Result<Json, GenError>)
    ensures q.JNull? ==> r == Err(ItemTypeError)
    ensures !q.JNull? && !WellTyped(q) ==> r == Err(InvalidQuestionFormat)
    ensures r.Ok? ==> q.JObj? && WellTyped(q) && r.value.JObj?
    ensures r.Ok? ==> r.value.fields.Keys == q.fields.Keys
    ensures r.Ok? ==> forall k :: k in q.fields && k !in {"question", "options", "explanation", "clue"} ==>
      r.value.fields[k] == q.fields[k]
    ensures r.Ok? ==> r.value.fields["question"] == JStr(CapitalizeFirstLetter(NormalizedQuestion(q).value.s))
    ensures r.Ok? ==> r.value.fields["explanation"] == JStr(CapitalizeFirstLetter(q.fields["explanation"].s))
    ensures r.Ok? ==> r.value.fields["clue"] == JStr(CapitalizeFirstLetter(q.fields["clue"].s))
    ensures r.Ok? ==> r.value.fields["correctIndex"] == q.fields["correctIndex"]
    ensures r.Ok? ==> r.value.fields["options"].JArr? && |r.value.fields["options"].items| == 4
    ensures !q.JNull? && WellTyped(q) ==> (r.Ok? <==> FormatOptions(q.fields["options"].items).Some?)
    ensures !q.JNull? && WellTyped(q) && FormatOptions(q.fields["options"].items).None? ==> r == Err(ItemTypeError)
    ensures r.Ok? ==> r.value.fields["options"] == JArr(FormatOptions(q.fields["options"].items).value)
  {
    if q.JNull? then Err(ItemTypeError)
    else if !WellTyped(q) then Err(InvalidQuestionFormat)
    else
      match FormatOptions(Field(q, "options").value.items)
      case None => Err(ItemTypeError)
      case Some(opts) =>
        Ok(JObj(q.fields[
          "question" := JStr(CapitalizeFirstLetter(NormalizedQuestion(q).value.s))][
          "options" := JArr(opts)][
          "explanation" := JStr(CapitalizeFirstLetter(q.fields["explanation"].s))][
          "clue" := JStr(CapitalizeFirstLetter(q.fields["clue"].s))]))
  }

  /**
   * The map over all items: every item is kept, in order, or the first
   * ill-typed item aborts the whole call with its error.
   */
  function FormatAll(items: seq<Json>): (r: Result<seq<Json>, GenError>)
    ensures r.Ok? <==> forall i :: 0 <= i < |items| ==> FormatQuestion(items[i]).Ok?
    ensures r.Ok? ==> |r.value| == |items| && forall i :: 0 <= i < |items| ==> r.value[i] == FormatQuestion(items[i]).value
    ensures r.Err? ==>
      exists i :: 0 <= i < |items| && FormatQuestion(items[i]) == Err(r.error) && forall j :: 0 <= j < i ==> FormatQuestion(items[j]).Ok?
  {
    if |items| == 0 then Ok([])
    else
      var head := FormatQuestion(items[0]);
      var rest := FormatAll(items[1..]);
      if head.Err? then Err(head.error)
      else if rest.Err? then
        assert forall i :: 0 <= i < |items[1..]| ==> items[1..][i] == items[i + 1];
        Err(rest.error)
      else Ok([head.value] + rest.value)
  }

  /** validateAndFormatQuestions. The "not an array" check after extraction can never fire. */
  function ValidateAndFormat(raw: string, parse: string -> Option<Json>): Result<seq<Json>, GenError>
  {
    match ParseWithRecovery(SanitizeJson(raw), parse)
    case Err(e) => Err(e)
    case Ok(parsed) => FormatAll(ExtractQuestions(parsed))
  }

  /**
   * Items are never dropped: a successful validation returns exactly as many
   * items as were extracted, and one ill-typed item fails the whole call.
   */
  lemma ValidateKeepsEveryItem(raw: string, parse: string -> Option<Json>)
    requires ParseWithRecovery(SanitizeJson(raw), parse).Ok?
    ensures var items := ExtractQuestions(ParseWithRecovery(SanitizeJson(raw), parse).value);
      && (ValidateAndFormat(raw, parse).Ok? ==> |ValidateAndFormat(raw, parse).value| == |items|)
      && (ValidateAndFormat(raw, parse).Ok? <==> forall i :: 0 <= i < |items| ==> FormatQuestion(items[i]).Ok?)
  {
  }

  /** A fenced answer validates exactly as the bare JSON inside the fence would. */
  lemma FencedAnswerValidatesLikeBare(body: string, parse: string -> Option<Json>)
    requires CleanBody(body)
    ensures ValidateAndFormat(Fenced(body), parse) == ValidateAndFormat(body, parse)
  {
    CleanFenced(body);
    StripFencesNoFence(body);
    TrimOfTrimmed(body);
    assert CleanJsonResponse(Fenced(body)) == CleanJsonResponse(body);
  }

  /** One generation attempt of generateQuiz: the call, validation, and the exact-count check. */
  function QuizAttempt(raw: Result<string, GenError>, parse: string -> Option<Json>): (r: Result<seq<Json>, GenError>)
    ensures r.Ok? ==> |r.value| == 15
    ensures raw.Err? ==> r == Err(raw.error)
    ensures raw.Ok? && ValidateAndFormat(raw.value, parse).Ok? && |ValidateAndFormat(raw.value, parse).value| != 15 ==>
      r == Err(InvalidQuestionCount(|ValidateAndFormat(raw.value, parse).value|))
    ensures raw.Ok? && ValidateAndFormat(raw.value, parse).Ok? && |ValidateAndFormat(raw.value, parse).value| == 15 ==>
      r == ValidateAndFormat(raw.value, parse)
    ensures raw.Ok? && ValidateAndFormat(raw.value, parse).Err? ==> r == ValidateAndFormat(raw.value, parse)
  {
    match raw
    case Err(e) => Err(e)
    case Ok(text) =>
      match ValidateAndFormat(text, parse)
      case Err(e) => Err(e)
      case Ok(qs) => if |qs| != 15 then Err(InvalidQuestionCount(|qs|)) else Ok(qs)
  }
}
