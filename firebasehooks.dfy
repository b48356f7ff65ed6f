/**
 * The dashboard's snapshot callbacks over the quiz table: the per-user
 * count fold behind the users table, and the de-duplication that turns
 * quiz documents into the list of users, enriched from the user records.
 */
module FirebaseHooks {

  import opened Wrappers
  import opened JsLib
  import opened Constants
  import opened TemplateTypes
  import opened QuizRuns

  /**
   * A quiz document as the dashboard reads it: a missing or empty userId
   * reads as "", a missing interests field as [], a missing status as None.
   */
  datatype QuizDoc = QuizDoc(
    id: string,
    userId: string,
    level: string,
    gameMode: string,
    difficulty: string,
    interests: seq<string>,
    status: Option<QuizStatus>,
    createdAt: Option<Timestamp>)

  datatype UserQuizCounts = UserQuizCounts(total: int, approved: int, pending: int)

  /** Explicitly pending or without a status; a regenerating quiz is neither approved nor pending. */
  predicate CountsAsPending(d: QuizDoc)
  {
    d.status == Some(QuizPending) || d.status.None?
  }

  // ---------------------------------------------------------------------
  // useAllUserQuizCounts.
  // ---------------------------------------------------------------------

  /** One document's contribution to its user's counters. */
  function Tally(c: UserQuizCounts, d: QuizDoc): UserQuizCounts
  {
    UserQuizCounts(c.total + 1,
                   c.approved + (if d.status == Some(QuizApproved) then 1 else 0),
                   c.pending + (if CountsAsPending(d) then 1 else 0))
  }

  /** The fold over the snapshot in document order; documents without a userId are skipped. */
  function CountsOf(docs: seq<QuizDoc>): map<string, UserQuizCounts>
    decreases |docs|
  {
    if |docs| == 0 then map[]
    else
      var before := CountsOf(docs[..|docs| - 1]);
      var d := docs[|docs| - 1];
      if d.userId == "" then before
      else before[d.userId := Tally(if d.userId in before then before[d.userId] else UserQuizCounts(0, 0, 0), d)]
  }

  /** The snapshot callback: one dictionary entry per user, incremented per document. */
  method CountQuizzes(docs: seq<QuizDoc>) returns (counts: map<string, UserQuizCounts>)
    ensures counts == CountsOf(docs)
  {
    counts := map[];
    var k := 0;
    while k < |docs|
      invariant 0 <= k <= |docs|
      invariant counts == CountsOf(docs[..k])
    {
      assert docs[..k + 1][..k] == docs[..k];
      var d := docs[k];
      if d.userId != "" {
        if d.userId !in counts {
          counts := counts[d.userId := UserQuizCounts(0, 0, 0)];
        }
        var c := counts[d.userId];
        counts := counts[d.userId := UserQuizCounts(c.total + 1, c.approved, c.pending)];
        if d.status == Some(QuizApproved) {
          counts := counts[d.userId := counts[d.userId].(approved := c.approved + 1)];
        } else if CountsAsPending(d) {
          counts := counts[d.userId := counts[d.userId].(pending := c.pending + 1)];
        }
      }
      k := k + 1;
    }
    assert docs[..k] == docs;
  }

  /** The documents carrying one userId, in snapshot order: the detail view's `where('userId', '==', userId)` query. */
  function UserDocs(docs: seq<QuizDoc>, u: string): (r: seq<QuizDoc>)
    ensures |r| <= |docs|
    decreases |docs|
  {
    if |docs| == 0 then []
    else UserDocs(docs[..|docs| - 1], u) + (if docs[|docs| - 1].userId == u then [docs[|docs| - 1]] else [])
  }

  /** A user's documents are exactly the snapshot's documents carrying that userId. */
  lemma {:induction false} UserDocsMembers(docs: seq<QuizDoc>, u: string)
    ensures forall d :: d in UserDocs(docs, u) <==> d in docs && d.userId == u
    decreases |docs|
  {
    if |docs| > 0 {
      var n := |docs| - 1;
      UserDocsMembers(docs[..n], u);
      assert docs == docs[..n] + [docs[n]];
      assert forall d :: d in docs <==> d in docs[..n] || d == docs[n];
    }
  }

  /** The per-user selection keeps snapshot order: it distributes over concatenation. */
  lemma {:induction false} UserDocsConcat(a: seq<QuizDoc>, b: seq<QuizDoc>, u: string)
    ensures UserDocs(a + b, u) == UserDocs(a, u) + UserDocs(b, u)
    decreases |b|
  {
    if |b| > 0 {
      var n := |b| - 1;
      assert (a + b)[..|a + b| - 1] == a + b[..n];
      assert (a + b)[|a + b| - 1] == b[n];
      UserDocsConcat(a, b[..n], u);
    } else {
      assert a + b == a;
    }
  }

  /** useUserQuizSets: a falsy id lists nothing and runs no query; any other id runs the userId query. */
  function UserQuizSets(docs: seq<QuizDoc>, u: string): (r: seq<QuizDoc>)
    ensures |r| <= |docs|
  {
    if u == "" then [] else UserDocs(docs, u)
  }

  /** The detail view lists exactly the snapshot's documents of a non-empty userId. */
  lemma UserQuizSetsMembers(docs: seq<QuizDoc>, u: string)
    ensures forall d :: d in UserQuizSets(docs, u) <==> u != "" && d in docs && d.userId == u
  {
    UserDocsMembers(docs, u);
  }

  function ApprovedCount(docs: seq<QuizDoc>): nat
    decreases |docs|
  {
    if |docs| == 0 then 0
    else ApprovedCount(docs[..|docs| - 1]) + (if docs[|docs| - 1].status == Some(QuizApproved) then 1 else 0)
  }

  function PendingCount(docs: seq<QuizDoc>): nat
    decreases |docs|
  {
    if |docs| == 0 then 0
    else PendingCount(docs[..|docs| - 1]) + (if CountsAsPending(docs[|docs| - 1]) then 1 else 0)
  }

  function RegeneratingCount(docs: seq<QuizDoc>): nat
    decreases |docs|
  {
    if |docs| == 0 then 0
    else RegeneratingCount(docs[..|docs| - 1]) + (if docs[|docs| - 1].status == Some(QuizRegenerating) then 1 else 0)
  }

  /** The counters of the quiz sets given, as the detail view computes them by filtering. */
  function CountsOfSets(docs: seq<QuizDoc>): UserQuizCounts
  {
    UserQuizCounts(|docs|, ApprovedCount(docs), PendingCount(docs))
  }

  /** Appending one document to a user's documents tallies it onto their counters. */
  lemma CountsOfSetsSnoc(pre: seq<QuizDoc>, d: QuizDoc)
    ensures CountsOfSets(pre + [d]) == Tally(CountsOfSets(pre), d)
  {
    assert (pre + [d])[..|pre|] == pre;
  }

  /**
   * The fold has an entry exactly for each non-empty userId that occurs,
   * and that entry holds the counters of that user's documents alone.
   */
  lemma {:induction false} CountsAreFilters(docs: seq<QuizDoc>, u: string)
    ensures u in CountsOf(docs) <==> u != "" && |UserDocs(docs, u)| > 0
    ensures u in CountsOf(docs) ==> CountsOf(docs)[u] == CountsOfSets(UserDocs(docs, u))
    decreases |docs|
  {
    if |docs| > 0 {
      var n := |docs| - 1;
      CountsAreFilters(docs[..n], u);
      var pre, d := UserDocs(docs[..n], u), docs[n];
      if d.userId == u {
        assert UserDocs(docs, u) == pre + [d];
        CountsOfSetsSnoc(pre, d);
        if u != "" && u !in CountsOf(docs[..n]) {
          assert pre == [];
          assert CountsOf(docs)[u] == Tally(UserQuizCounts(0, 0, 0), d);
        } else if u != "" {
          assert CountsOf(docs)[u] == Tally(CountsOf(docs[..n])[u], d);
        }
      } else {
        assert UserDocs(docs, u) == pre;
      }
    }
  }

  /**
   * Every document counts toward its user's total; approved and pending
   * together never exceed it, and the gap is exactly the regenerating ones.
   */
  lemma {:induction false} CountsAddUp(docs: seq<QuizDoc>)
    ensures ApprovedCount(docs) + PendingCount(docs) + RegeneratingCount(docs) == |docs|
    ensures ApprovedCount(docs) + PendingCount(docs) <= |docs|
    decreases |docs|
  {
    if |docs| > 0 {
      var d := docs[|docs| - 1];
      CountsAddUp(docs[..|docs| - 1]);
      if d.status.Some? {
        match d.status.value
        case QuizPending =>
        case QuizApproved =>
        case QuizRegenerating =>
      }
    }
  }

  /** The table's counters for a user: total is that user's documents; approved + pending never exceed it. */
  lemma UserCountsBounded(docs: seq<QuizDoc>, u: string)
    requires u in CountsOf(docs)
    ensures CountsOf(docs)[u].total == |UserDocs(docs, u)| > 0
    ensures CountsOf(docs)[u].approved + CountsOf(docs)[u].pending <= CountsOf(docs)[u].total
    ensures u != ""
  {
    CountsAreFilters(docs, u);
    CountsAddUp(UserDocs(docs, u));
  }

  // ---------------------------------------------------------------------
  // useUsers.
  // ---------------------------------------------------------------------

  /** What the scan keeps per user. */
  datatype UserEntry = UserEntry(interests: seq<string>, createdAt: Option<Timestamp>)

  /** The scan's Map: its keys in insertion order and its entries. */
  datatype UserMap = UserMap(keys: seq<string>, entries: map<string, UserEntry>)

  /** One document seen by the scan: a new user is added; a known user's empty interests are filled in. */
  function Visit(m: UserMap, d: QuizDoc): UserMap
  {
    if d.userId == "" then m
    else if d.userId !in m.entries then UserMap(m.keys + [d.userId], m.entries[d.userId := UserEntry(d.interests, d.createdAt)])
    else if |m.entries[d.userId].interests| == 0 then m.(entries := m.entries[d.userId := m.entries[d.userId].(interests := d.interests)])
    else m
  }

  function Collect(docs: seq<QuizDoc>): UserMap
    decreases |docs|
  {
    if |docs| == 0 then UserMap([], map[]) else Visit(Collect(docs[..|docs| - 1]), docs[|docs| - 1])
  }

  /** The earliest non-empty interests list among the documents, or []. */
  function FirstInterests(docs: seq<QuizDoc>): seq<string>
    decreases |docs|
  {
    if |docs| == 0 then []
    else
      var earlier := FirstInterests(docs[..|docs| - 1]);
      if |earlier| == 0 then docs[|docs| - 1].interests else earlier
  }

  ghost predicate WellKeyed(m: UserMap)
  {
    Distinct(m.keys) && (forall u :: u in m.entries <==> u in m.keys)
  }

  /**
   * The scan lists each non-empty userId once, keeps the creation stamp of
   * that user's first document, and keeps the first non-empty interests list.
   */
  lemma {:induction false} CollectShape(docs: seq<QuizDoc>, u: string)
    ensures WellKeyed(Collect(docs))
    ensures u in Collect(docs).entries <==> u != "" && |UserDocs(docs, u)| > 0
    ensures u in Collect(docs).entries ==>
      && Collect(docs).entries[u].createdAt == UserDocs(docs, u)[0].createdAt
      && Collect(docs).entries[u].interests == FirstInterests(UserDocs(docs, u))
    decreases |docs|
  {
    if |docs| > 0 {
      var n := |docs| - 1;
      CollectShape(docs[..n], u);
      CollectShape(docs[..n], docs[n].userId);
      var m := Collect(docs[..n]);
      var pre, d := UserDocs(docs[..n], u), docs[n];
      if d.userId == u {
        assert UserDocs(docs, u) == pre + [d];
        assert (pre + [d])[..|pre|] == pre;
        assert FirstInterests(pre + [d]) == if |FirstInterests(pre)| == 0 then d.interests else FirstInterests(pre);
        if u != "" && u !in m.entries {
          assert pre == [];
        }
      } else {
        assert UserDocs(docs, u) == pre;
      }
      if docs[n].userId != "" && docs[n].userId !in m.entries {
        forall i, j | 0 <= i < j < |m.keys| + 1
          ensures (m.keys + [docs[n].userId])[i] != (m.keys + [docs[n].userId])[j]
        {
          if j == |m.keys| {
            assert m.keys[i] in m.entries;
          }
        }
      }
    }
  }

  /** A user record, when the user collection has one; a missing or empty name or email reads as "". */
  datatype UserRecord = UserRecord(name: string, email: string, interests: Option<seq<string>>, createdAt: Option<Timestamp>)

  datatype UserData = UserData(id: string, name: string, email: string, interests: seq<string>, createdAt: Option<Timestamp>)

  /** The name given to a user the user collection does not know. */
  function FallbackName(id: string): (r: string)
    ensures 5 <= |r| <= 13 && r[..5] == "User " && r[5..] <= id
  {
    "User " + Prefix(id, 8)
  }

  /** One listed user: from the user record when found, otherwise from the scan alone. */
  function UserDataFor(id: string, e: UserEntry, record: Option<UserRecord>): UserData
  {
    match record
    case Some(r) =>
      UserData(id, if r.name != "" then r.name else "Unknown User", if r.email != "" then r.email else "No email",
               if r.interests.Some? then r.interests.value else e.interests,
               if r.createdAt.Some? then r.createdAt else e.createdAt)
    case None => UserData(id, FallbackName(id), "user@example.com", e.interests, e.createdAt)
  }

  /**
   * The snapshot callback of useUsers: scan the documents, then look each
   * user up in insertion order. `lookup` answers None for a missing user
   * record and for a failed lookup, which the callback treats alike.
   */
  method UseUsers(docs: seq<QuizDoc>, lookup: string -> Option<UserRecord>) returns (users: seq<UserData>)
    ensures var m := Collect(docs);
      && |users| == |m.keys|
      && forall i :: 0 <= i < |users| ==> m.keys[i] in m.entries && users[i] == UserDataFor(m.keys[i], m.entries[m.keys[i]], lookup(m.keys[i]))
  {
    var keys: seq<string>, entries: map<string, UserEntry> := [], map[];
    var k := 0;
    while k < |docs|
      invariant 0 <= k <= |docs|
      invariant UserMap(keys, entries) == Collect(docs[..k])
    {
      assert docs[..k + 1][..k] == docs[..k];
      var d := docs[k];
      if d.userId != "" && d.userId !in entries {
        entries := entries[d.userId := UserEntry(d.interests, d.createdAt)];
        keys := keys + [d.userId];
      } else if d.userId != "" {
        var existing := entries[d.userId];
        if |existing.interests| == 0 {
          entries := entries[d.userId := existing.(interests := d.interests)];
        }
      }
      k := k + 1;
    }
    assert docs[..k] == docs;
    CollectShape(docs, "");
    users := [];
    var i := 0;
    while i < |keys|
      invariant 0 <= i <= |keys|
      invariant |users| == i
      invariant forall j :: 0 <= j < i ==> keys[j] in entries && users[j] == UserDataFor(keys[j], entries[keys[j]], lookup(keys[j]))
    {
      var id := keys[i];
      users := users + [UserDataFor(id, entries[id], lookup(id))];
      i := i + 1;
    }
  }

  /**
   * The listed users are distinct, one per non-empty userId among the
   * documents; a user without a record is named from the first eight
   * characters of the id and keeps the scan's creation stamp.
   */
  lemma ListedUsers(docs: seq<QuizDoc>, lookup: string -> Option<UserRecord>, users: seq<UserData>, u: string)
    requires var m := Collect(docs);
      && |users| == |m.keys|
      && forall i :: 0 <= i < |users| ==> m.keys[i] in m.entries && users[i] == UserDataFor(m.keys[i], m.entries[m.keys[i]], lookup(m.keys[i]))
    ensures forall i, j :: 0 <= i < j < |users| ==> users[i].id != users[j].id
    ensures (exists i :: 0 <= i < |users| && users[i].id == u) <==> u != "" && |UserDocs(docs, u)| > 0
    ensures forall i :: 0 <= i < |users| && lookup(users[i].id).None? ==>
      users[i].name == FallbackName(users[i].id) && |UserDocs(docs, users[i].id)| > 0
      && users[i].createdAt == UserDocs(docs, users[i].id)[0].createdAt
  {
    var m := Collect(docs);
    CollectShape(docs, u);
    forall i | 0 <= i < |users| && lookup(users[i].id).None?
      ensures users[i].name == FallbackName(users[i].id) && |UserDocs(docs, users[i].id)| > 0
        && users[i].createdAt == UserDocs(docs, users[i].id)[0].createdAt
    {
      CollectShape(docs, m.keys[i]);
    }
    if u != "" && |UserDocs(docs, u)| > 0 {
      var i :| 0 <= i < |m.keys| && m.keys[i] == u;
      assert users[i].id == u;
    }
  }
}
