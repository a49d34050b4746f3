// The submission endpoints of app/routers/responses.py: the expiry check,
// the answer-set validation, the rater hash, the rater capacity rule and the
// delete-then-insert replacement of a submitter's rows, rolled back when the
// aggregate cannot be recalculated.
module Responses {
  import opened Wrappers
  import opened Scoring
  import Text
  import Sorting
  import OM = OrderedMaps
  import Agg = Aggregator
  import Q = Questions
  import QL = QuestionnaireLoader

  /** ensure_session_active: the session is expired (410) iff expires_at < now. */
  predicate Expired(expiresAt: int, now: int) {
    expiresAt < now
  }

  // ---------------------------------------------------------------- validate_answers

  datatype AnswerItem = AnswerItem(questionId: int, value: int)

  function QuestionIdOf(a: AnswerItem): int {
    a.questionId
  }

  /** provided_ids: the question id of each submitted answer, in order. */
  function ProvidedIds(answers: seq<AnswerItem>): (ids: seq<int>)
    ensures |ids| == |answers| && forall i :: 0 <= i < |answers| ==> ids[i] == answers[i].questionId
  {
    seq(|answers|, i requires 0 <= i < |answers| => answers[i].questionId)
  }

  /** One failure class of validate_answers, in the order they are reported. */
  datatype AnswerProblem =
    | CountMismatch(expected: nat, provided: nat)
    | DuplicateIds(ids: seq<int>)
    | UnexpectedIds(ids: seq<int>)
    | MissingIds(ids: seq<int>)

  function Elems(xs: seq<int>): set<int> {
    set x | x in xs
  }

  predicate Distinct(xs: seq<int>) {
    forall i, j :: 0 <= i < j < |xs| ==> xs[i] != xs[j]
  }

  predicate StrictlyAscending(xs: seq<int>) {
    forall i, j :: 0 <= i < j < |xs| ==> xs[i] < xs[j]
  }

  /** The `duplicates` list: every occurrence of an id already seen. */
  function Repeats(ids: seq<int>): seq<int> {
    if |ids| == 0 then []
    else
      var front := ids[..|ids| - 1];
      if ids[|ids| - 1] in front then Repeats(front) + [ids[|ids| - 1]] else Repeats(front)
  }

  /** The elements of xs outside s, in order. */
  function Outside(xs: seq<int>, s: set<int>): (r: seq<int>)
    ensures forall x :: x in r <==> x in xs && x !in s
  {
    if |xs| == 0 then []
    else if xs[0] in s then Outside(xs[1..], s)
    else [xs[0]] + Outside(xs[1..], s)
  }

  /** The seen/duplicates loop of validate_answers. */
  method FindRepeats(ids: seq<int>) returns (duplicates: seq<int>)
    ensures duplicates == Repeats(ids)
  {
    duplicates := [];
    var seen: set<int> := {};
    for i := 0 to |ids|
      invariant duplicates == Repeats(ids[..i])
      invariant seen == Elems(ids[..i])
    {
      assert ids[..i + 1][..i] == ids[..i];
      assert ids[..i + 1] == ids[..i] + [ids[i]];
      if ids[i] in seen {
        duplicates := duplicates + [ids[i]];
      } else {
        seen := seen + {ids[i]};
      }
    }
    assert ids[..|ids|] == ids;
  }

  /** An id is listed as a duplicate iff it occurs twice. */
  lemma {:induction false} RepeatsMembers(ids: seq<int>, x: int)
    ensures x in Repeats(ids) <==> exists i, j :: 0 <= i < j < |ids| && ids[i] == x && ids[j] == x
  {
    if |ids| > 0 {
      var n := |ids| - 1;
      var front := ids[..n];
      RepeatsMembers(front, x);
      if exists i, j :: 0 <= i < j < |ids| && ids[i] == x && ids[j] == x {
        var i, j :| 0 <= i < j < |ids| && ids[i] == x && ids[j] == x;
        if j < n {
          assert front[i] == x && front[j] == x;
        } else {
          assert front[i] == x;
        }
      }
      if x in Repeats(ids) && x !in Repeats(front) {
        assert ids[n] == x && x in front;
        var i :| 0 <= i < n && front[i] == x;
        assert ids[i] == x;
      }
      if x in Repeats(front) {
        var i, j :| 0 <= i < j < n && front[i] == x && front[j] == x;
        assert ids[i] == x && ids[j] == x;
      }
    }
  }

  /** All RepeatsMembers facts at once. */
  lemma RepeatsExactly(ids: seq<int>)
    ensures forall x :: x in Repeats(ids) <==> exists i, j :: 0 <= i < j < |ids| && ids[i] == x && ids[j] == x
  {
    forall x ensures x in Repeats(ids) <==> exists i, j :: 0 <= i < j < |ids| && ids[i] == x && ids[j] == x {
      RepeatsMembers(ids, x);
    }
  }

  /** sorted(set(duplicates)): the ids given more than once, ascending. */
  function DuplicateList(provided: seq<int>): (ids: seq<int>)
    ensures StrictlyAscending(ids)
    ensures forall x :: x in ids <==> exists i, j :: 0 <= i < j < |provided| && provided[i] == x && provided[j] == x
  {
    RepeatsExactly(provided);
    Sorting.SortedUniqueInts(Repeats(provided))
  }

  /** sorted(set(provided_ids) - expected_ids). */
  function UnexpectedList(questionIds: seq<int>, provided: seq<int>): (ids: seq<int>)
    ensures StrictlyAscending(ids)
    ensures forall x :: x in ids <==> x in provided && x !in questionIds
  {
    Sorting.SortedUniqueInts(Outside(provided, Elems(questionIds)))
  }

  /** sorted(expected_ids - set(provided_ids)). */
  function MissingList(questionIds: seq<int>, provided: seq<int>): (ids: seq<int>)
    ensures StrictlyAscending(ids)
    ensures forall x :: x in ids <==> x in questionIds && x !in provided
  {
    Sorting.SortedUniqueInts(Outside(questionIds, Elems(provided)))
  }

  /** [p] when the failure class occurred, else nothing. */
  function Report(occurred: bool, p: AnswerProblem): seq<AnswerProblem> {
    if occurred then [p] else []
  }

  /** validate_answers' messages, given the ids of the mode's questions and
    * the provided question ids. */
  function AnswerProblems(questionIds: seq<int>, provided: seq<int>): seq<AnswerProblem> {
    var expected := |Elems(questionIds)|;
    Report(|provided| != expected, CountMismatch(expected, |provided|)) +
    Report(|DuplicateList(provided)| > 0, DuplicateIds(DuplicateList(provided))) +
    Report(|UnexpectedList(questionIds, provided)| > 0, UnexpectedIds(UnexpectedList(questionIds, provided))) +
    Report(|MissingList(questionIds, provided)| > 0, MissingIds(MissingList(questionIds, provided)))
  }

  /** The ids of questions_for_mode(mode)'s payloads, in their order, or the
    * ValueError it raises for a mode it does not know. */
  function ExpectedIds(seeds: seq<QL.QuestionSeed>, mode: string): (r: Result<seq<int>, Q.QuestionsError>)
    ensures r.Err? <==> Text.Lower(mode) !in Q.ModeToContexts
    ensures r.Err? ==> r.error == Q.UnsupportedMode(mode)
    ensures r.Ok? ==> |r.value| == |Q.QuestionsForMode(seeds, mode).value|
    ensures r.Ok? ==> forall k :: 0 <= k < |r.value| ==> r.value[k] == Q.QuestionsForMode(seeds, mode).value[k].id
  {
    match Q.QuestionsForMode(seeds, mode)
    case Err(e) => Err(e)
    case Ok(payloads) => Ok(seq(|payloads|, k requires 0 <= k < |payloads| => payloads[k].id))
  }

  /** The expected ids are exactly the ids of the seeds whose context the mode
    * covers. */
  lemma {:induction false} ExpectedIdsOfContexts(seeds: seq<QL.QuestionSeed>, mode: string)
    requires Text.Lower(mode) in Q.ModeToContexts
    ensures forall x :: x in ExpectedIds(seeds, mode).value <==>
      exists q :: q in seeds && q.context in Q.ModeToContexts[Text.Lower(mode)] && q.id == x
  {
    Q.ModeSeedsSpec(seeds, mode);
    var chosen := Q.ModeSeeds(seeds, mode).value;
    var ids := ExpectedIds(seeds, mode).value;
    assert |ids| == |chosen| && forall k :: 0 <= k < |ids| ==> ids[k] == chosen[k].id;
    forall x ensures x in ids <==> exists q :: q in seeds && q.context in Q.ModeToContexts[Text.Lower(mode)] && q.id == x {
      if x in ids {
        var k :| 0 <= k < |ids| && ids[k] == x;
        assert chosen[k] in chosen;
      }
      if exists q :: q in seeds && q.context in Q.ModeToContexts[Text.Lower(mode)] && q.id == x {
        var q :| q in seeds && q.context in Q.ModeToContexts[Text.Lower(mode)] && q.id == x;
        assert q in chosen;
        var k :| 0 <= k < |chosen| && chosen[k] == q;
        assert ids[k] == x;
      }
    }
  }

  /** What validate_answers(mode, answers) reports: the ValueError of an
    * unknown mode, or the problems found against the mode's questions,
    * empty when the answers are accepted. */
  function Validation(seeds: seq<QL.QuestionSeed>, mode: string, answers: seq<AnswerItem>): Result<seq<AnswerProblem>, Q.QuestionsError> {
    match ExpectedIds(seeds, mode)
    case Err(e) => Err(e)
    case Ok(ids) => Ok(AnswerProblems(ids, ProvidedIds(answers)))
  }

  /** validate_answers: the questions of the mode, then the problems found. */
  method ValidateAnswers(seeds: seq<QL.QuestionSeed>, mode: string, answers: seq<AnswerItem>)
    returns (r: Result<seq<AnswerProblem>, Q.QuestionsError>)
    ensures r == Validation(seeds, mode, answers)
  {
    var expectedIds := ExpectedIds(seeds, mode);
    if expectedIds.Err? {
      return Err(expectedIds.error);
    }
    var problems := CompareIds(expectedIds.value, answers);
    r := Ok(problems);
  }

  /** The comparison half of validate_answers: the problems found, empty when
    * the answers are accepted. */
  method CompareIds(questionIds: seq<int>, answers: seq<AnswerItem>) returns (problems: seq<AnswerProblem>)
    ensures problems == AnswerProblems(questionIds, ProvidedIds(answers))
  {
    var provided := ProvidedIds(answers);
    var expected := |Elems(questionIds)|;
    problems := Report(|provided| != expected, CountMismatch(expected, |provided|));
    var duplicates := FindRepeats(provided);
    var unique := Sorting.SortedUniqueInts(duplicates);
    problems := problems + Report(|unique| > 0, DuplicateIds(unique));
    var unexpected := UnexpectedList(questionIds, provided);
    problems := problems + Report(|unexpected| > 0, UnexpectedIds(unexpected));
    var missing := MissingList(questionIds, provided);
    problems := problems + Report(|missing| > 0, MissingIds(missing));
  }

  /** A listing is non-empty iff it has a member. */
  lemma NonEmptyList(ids: seq<int>)
    ensures |ids| > 0 <==> exists x :: x in ids
  {
    if |ids| > 0 {
      var x := ids[0];
      assert x in ids;
    }
  }

  /** Each failure class occurs exactly when its listing is non-empty:
    * duplicates iff some id is repeated, unexpected ids iff some provided id
    * is not a question of the mode, missing ids iff some question was not
    * answered. */
  lemma ClassOccurs(questionIds: seq<int>, provided: seq<int>)
    ensures |DuplicateList(provided)| > 0 <==> !Distinct(provided)
    ensures |UnexpectedList(questionIds, provided)| > 0 <==> exists x :: x in provided && x !in questionIds
    ensures |MissingList(questionIds, provided)| > 0 <==> exists x :: x in questionIds && x !in provided
  {
    NonEmptyList(DuplicateList(provided));
    NonEmptyList(UnexpectedList(questionIds, provided));
    NonEmptyList(MissingList(questionIds, provided));
    if !Distinct(provided) {
      var i, j :| 0 <= i < j < |provided| && provided[i] == provided[j];
      assert provided[i] in DuplicateList(provided);
    }
  }

  lemma NoProblemsIff(questionIds: seq<int>, provided: seq<int>)
    ensures AnswerProblems(questionIds, provided) == [] <==>
      |provided| == |Elems(questionIds)| && |DuplicateList(provided)| == 0 &&
      |UnexpectedList(questionIds, provided)| == 0 && |MissingList(questionIds, provided)| == 0
  {
    var expected := |Elems(questionIds)|;
    var r1 := Report(|provided| != expected, CountMismatch(expected, |provided|));
    var r2 := Report(|DuplicateList(provided)| > 0, DuplicateIds(DuplicateList(provided)));
    var r3 := Report(|UnexpectedList(questionIds, provided)| > 0, UnexpectedIds(UnexpectedList(questionIds, provided)));
    var r4 := Report(|MissingList(questionIds, provided)| > 0, MissingIds(MissingList(questionIds, provided)));
    assert |AnswerProblems(questionIds, provided)| == |r1| + |r2| + |r3| + |r4|;
  }

  /** The answers are accepted iff their ids are exactly the mode's question
    * ids, each once. */
  lemma AnswersValidIff(questionIds: seq<int>, provided: seq<int>)
    ensures AnswerProblems(questionIds, provided) == [] <==>
      Distinct(provided) && Elems(provided) == Elems(questionIds)
  {
    NoProblemsIff(questionIds, provided);
    ClassOccurs(questionIds, provided);
    if Distinct(provided) && Elems(provided) == Elems(questionIds) {
      OM.DistinctCard(provided);
    }
  }

  /** validate_answers accepts exactly the answer sets that name each
    * question of the mode's contexts once and nothing else, and fails for a
    * mode it does not know. */
  lemma ValidationIff(seeds: seq<QL.QuestionSeed>, mode: string, answers: seq<AnswerItem>)
    ensures Validation(seeds, mode, answers).Err? <==> Text.Lower(mode) !in Q.ModeToContexts
    ensures Validation(seeds, mode, answers) == Ok([]) <==>
      Text.Lower(mode) in Q.ModeToContexts && Distinct(ProvidedIds(answers)) &&
      forall x :: x in ProvidedIds(answers) <==>
        exists q :: q in seeds && q.context in Q.ModeToContexts[Text.Lower(mode)] && q.id == x
  {
    if Text.Lower(mode) in Q.ModeToContexts {
      var ids := ExpectedIds(seeds, mode).value;
      var provided := ProvidedIds(answers);
      AnswersValidIff(ids, provided);
      ExpectedIdsOfContexts(seeds, mode);
      assert Elems(provided) == Elems(ids) <==> forall x :: x in provided <==> x in ids;
    }
  }

  // ---------------------------------------------------------------- build_rater_hash

  /** "{question_id}:{value};" */
  function Fragment(a: AnswerItem): string {
    Text.IntToString(a.questionId) + ":" + Text.IntToString(a.value) + ";"
  }

  function Fragments(items: seq<AnswerItem>): string {
    if |items| == 0 then "" else Fragments(items[..|items| - 1]) + Fragment(items[|items| - 1])
  }

  const ByQuestionId: (AnswerItem, AnswerItem) -> bool := (a: AnswerItem, b: AnswerItem) => a.questionId <= b.questionId

  lemma ByQuestionIdTotal()
    ensures Sorting.TotalPreorder(ByQuestionId)
  {
  }

  /** The rater key when one is given and non-empty, else the answers in
    * ascending question order. */
  function RaterHashBase(raterKey: Option<string>, answers: seq<AnswerItem>): string {
    if raterKey.Some? && raterKey.value != "" then raterKey.value
    else Fragments(Sorting.Sort(answers, ByQuestionId))
  }

  /** build_rater_hash: SHA-256 (passed in) of "{invite_token}:{base}". */
  function BuildRaterHash(sha256: string -> string, inviteToken: string, raterKey: Option<string>,
                          answers: seq<AnswerItem>): string {
    sha256(inviteToken + ":" + RaterHashBase(raterKey, answers))
  }

  /** Sorting answers of distinct questions puts them in strictly ascending
    * question order. */
  lemma SortedStrictly(answers: seq<AnswerItem>)
    requires Sorting.DistinctBy(answers, QuestionIdOf)
    ensures var s := Sorting.Sort(answers, ByQuestionId);
      multiset(s) == multiset(answers) &&
      forall i, j :: 0 <= i < j < |s| ==> s[i].questionId < s[j].questionId
  {
    var s := Sorting.Sort(answers, ByQuestionId);
    ByQuestionIdTotal();
    Sorting.SortCorrect(answers, ByQuestionId);
    Sorting.PermutationDistinctKeys(answers, s, QuestionIdOf);
    forall i, j | 0 <= i < j < |s| ensures s[i].questionId < s[j].questionId {
      assert ByQuestionId(s[i], s[j]);
      assert QuestionIdOf(s[i]) != QuestionIdOf(s[j]);
    }
  }

  /** The hash does not depend on the order in which the answers (one per
    * question, as validate_answers guarantees) were submitted. */
  lemma RaterHashOrderFree(sha256: string -> string, inviteToken: string, raterKey: Option<string>,
                           a: seq<AnswerItem>, b: seq<AnswerItem>)
    requires multiset(a) == multiset(b) && Sorting.DistinctBy(a, QuestionIdOf)
    ensures BuildRaterHash(sha256, inviteToken, raterKey, a) == BuildRaterHash(sha256, inviteToken, raterKey, b)
  {
    Sorting.PermutationDistinctKeys(a, b, QuestionIdOf);
    SortedStrictly(a);
    SortedStrictly(b);
    Sorting.StrictlySortedUnique(Sorting.Sort(a, ByQuestionId), Sorting.Sort(b, ByQuestionId), QuestionIdOf);
  }

  // ---------------------------------------------------------------- the response tables

  /** A stored session, as far as the submission endpoints read it. */
  datatype SessionRecord = SessionRecord(id: string, inviteToken: string, mode: string, expiresAt: int, maxRaters: nat)

  datatype SelfRow = SelfRow(sessionId: string, questionId: int, value: int)

  datatype OtherRow = OtherRow(sessionId: string, response: Agg.OtherResponse)

  datatype SubmitError =
    | SessionNotFound
    | InviteNotFound
    | SessionExpired
    | ModeUnsupported(modeError: Q.QuestionsError)
    | AnswersInvalid(problems: seq<AnswerProblem>)
    | CapacityReached
    | ScoringFailed(cause: ScoringError)

  datatype SelfSubmitResponse = SelfSubmitResponse(sessionId: string, selfNorm: Norms, selfRadar: Norms)

  datatype OtherSubmitResponse = OtherSubmitResponse(sessionId: string, accepted: bool, respondents: nat)

  /** The session's self rows, as (question_id, value) answers. */
  function SelfAnswersOf(rows: seq<SelfRow>, sessionId: string): seq<Answer> {
    if |rows| == 0 then []
    else
      var front := SelfAnswersOf(rows[..|rows| - 1], sessionId);
      var r := rows[|rows| - 1];
      if r.sessionId == sessionId then front + [Answer(r.questionId, r.value)] else front
  }

  /** The session's other rows. */
  function OtherRowsOf(rows: seq<OtherRow>, sessionId: string): seq<Agg.OtherResponse> {
    if |rows| == 0 then []
    else
      var front := OtherRowsOf(rows[..|rows| - 1], sessionId);
      var r := rows[|rows| - 1];
      if r.sessionId == sessionId then front + [r.response] else front
  }

  /** DELETE FROM responses_self WHERE session_id = ... */
  function DeleteSelf(rows: seq<SelfRow>, sessionId: string): (r: seq<SelfRow>)
    ensures forall x :: x in r <==> x in rows && x.sessionId != sessionId
  {
    if |rows| == 0 then []
    else
      var front := DeleteSelf(rows[..|rows| - 1], sessionId);
      if rows[|rows| - 1].sessionId == sessionId then front else front + [rows[|rows| - 1]]
  }

  /** DELETE FROM responses_other WHERE session_id = ... AND rater_hash = ... */
  function DeleteRater(rows: seq<OtherRow>, sessionId: string, raterHash: string): (r: seq<OtherRow>)
    ensures forall x :: x in r <==> x in rows && !(x.sessionId == sessionId && x.response.raterHash == raterHash)
  {
    if |rows| == 0 then []
    else
      var front := DeleteRater(rows[..|rows| - 1], sessionId, raterHash);
      var x := rows[|rows| - 1];
      if x.sessionId == sessionId && x.response.raterHash == raterHash then front else front + [x]
  }

  function SelfRowsFor(sessionId: string, answers: seq<AnswerItem>): (rows: seq<SelfRow>)
    ensures |rows| == |answers|
    ensures forall i :: 0 <= i < |answers| ==> rows[i] == SelfRow(sessionId, answers[i].questionId, answers[i].value)
  {
    seq(|answers|, i requires 0 <= i < |answers| => SelfRow(sessionId, answers[i].questionId, answers[i].value))
  }

  function OtherRowsFor(sessionId: string, raterHash: string, relationTag: Option<string>,
                        answers: seq<AnswerItem>): (rows: seq<OtherRow>)
    ensures |rows| == |answers|
    ensures forall i :: 0 <= i < |answers| ==>
      rows[i] == OtherRow(sessionId, Agg.OtherResponse(raterHash, answers[i].questionId, answers[i].value, relationTag))
  {
    seq(|answers|, i requires 0 <= i < |answers| =>
      OtherRow(sessionId, Agg.OtherResponse(raterHash, answers[i].questionId, answers[i].value, relationTag)))
  }

  /** The distinct rater hashes of the session's other rows. */
  function RatersOf(rows: seq<OtherRow>, sessionId: string): set<string> {
    set x | x in rows && x.sessionId == sessionId :: x.response.raterHash
  }

  /** The capacity rule: a rater not yet present is refused once the session
    * has max_raters distinct raters; a present one may always resubmit. */
  predicate CapacityAllows(rows: seq<OtherRow>, sessionId: string, maxRaters: nat, raterHash: string) {
    !(|RatersOf(rows, sessionId)| >= maxRaters && raterHash !in RatersOf(rows, sessionId))
  }

  /** The answers of a payload as (question_id, value) pairs. */
  function AnswersFrom(items: seq<AnswerItem>): (answers: seq<Answer>)
    ensures |answers| == |items|
    ensures forall i :: 0 <= i < |items| ==> answers[i] == Answer(items[i].questionId, items[i].value)
  {
    seq(|items|, i requires 0 <= i < |items| => Answer(items[i].questionId, items[i].value))
  }

  /** The other-responses of one rater of one session. */
  function RaterRows(rows: seq<OtherRow>, sessionId: string, raterHash: string): seq<Agg.OtherResponse> {
    if |rows| == 0 then []
    else
      var front := RaterRows(rows[..|rows| - 1], sessionId, raterHash);
      var x := rows[|rows| - 1];
      if x.sessionId == sessionId && x.response.raterHash == raterHash then front + [x.response] else front
  }

  lemma {:induction false} SelfAnswersAppend(a: seq<SelfRow>, b: seq<SelfRow>, sessionId: string)
    ensures SelfAnswersOf(a + b, sessionId) == SelfAnswersOf(a, sessionId) + SelfAnswersOf(b, sessionId)
  {
    if |b| > 0 {
      var c, n := a + b, |b| - 1;
      assert c[..|c| - 1] == a + b[..n] && c[|c| - 1] == b[n];
      SelfAnswersAppend(a, b[..n], sessionId);
      var tail := if b[n].sessionId == sessionId then [Answer(b[n].questionId, b[n].value)] else [];
      assert SelfAnswersOf(c, sessionId) == SelfAnswersOf(a + b[..n], sessionId) + tail;
      assert SelfAnswersOf(b, sessionId) == SelfAnswersOf(b[..n], sessionId) + tail;
    } else {
      assert a + b == a;
    }
  }

  lemma {:induction false} SelfAnswersDeleted(rows: seq<SelfRow>, sessionId: string, other: string)
    ensures SelfAnswersOf(DeleteSelf(rows, sessionId), other) ==
      if other == sessionId then [] else SelfAnswersOf(rows, other)
  {
    if |rows| > 0 {
      var front := rows[..|rows| - 1];
      SelfAnswersDeleted(front, sessionId, other);
      if rows[|rows| - 1].sessionId != sessionId {
        var d := DeleteSelf(front, sessionId);
        assert (d + [rows[|rows| - 1]])[..|d|] == d;
      }
    }
  }

  lemma {:induction false} SelfAnswersFresh(sessionId: string, other: string, answers: seq<AnswerItem>)
    ensures SelfAnswersOf(SelfRowsFor(sessionId, answers), other) ==
      if other == sessionId then AnswersFrom(answers) else []
  {
    if |answers| > 0 {
      var n := |answers| - 1;
      assert SelfRowsFor(sessionId, answers)[..n] == SelfRowsFor(sessionId, answers[..n]);
      SelfAnswersFresh(sessionId, other, answers[..n]);
      assert AnswersFrom(answers) == AnswersFrom(answers[..n]) + [AnswersFrom(answers)[n]];
    }
  }

  /** Delete-then-insert of self answers: afterwards the session's self
    * answers are exactly the payload, and every other session's are as before. */
  lemma SelfReplacement(rows: seq<SelfRow>, sessionId: string, answers: seq<AnswerItem>, other: string)
    ensures SelfAnswersOf(DeleteSelf(rows, sessionId) + SelfRowsFor(sessionId, answers), other) ==
      if other == sessionId then AnswersFrom(answers) else SelfAnswersOf(rows, other)
  {
    SelfAnswersAppend(DeleteSelf(rows, sessionId), SelfRowsFor(sessionId, answers), other);
    SelfAnswersDeleted(rows, sessionId, other);
    SelfAnswersFresh(sessionId, other, answers);
  }

  lemma {:induction false} RaterRowsAppend(a: seq<OtherRow>, b: seq<OtherRow>, sessionId: string, raterHash: string)
    ensures RaterRows(a + b, sessionId, raterHash) == RaterRows(a, sessionId, raterHash) + RaterRows(b, sessionId, raterHash)
  {
    if |b| > 0 {
      var c, n := a + b, |b| - 1;
      assert c[..|c| - 1] == a + b[..n] && c[|c| - 1] == b[n];
      RaterRowsAppend(a, b[..n], sessionId, raterHash);
      var tail := if b[n].sessionId == sessionId && b[n].response.raterHash == raterHash then [b[n].response] else [];
      assert RaterRows(c, sessionId, raterHash) == RaterRows(a + b[..n], sessionId, raterHash) + tail;
      assert RaterRows(b, sessionId, raterHash) == RaterRows(b[..n], sessionId, raterHash) + tail;
    } else {
      assert a + b == a;
    }
  }

  lemma {:induction false} RaterRowsDeleted(rows: seq<OtherRow>, sessionId: string, raterHash: string, s: string, h: string)
    ensures RaterRows(DeleteRater(rows, sessionId, raterHash), s, h) ==
      if s == sessionId && h == raterHash then [] else RaterRows(rows, s, h)
  {
    if |rows| > 0 {
      var front := rows[..|rows| - 1];
      RaterRowsDeleted(front, sessionId, raterHash, s, h);
      var x := rows[|rows| - 1];
      if !(x.sessionId == sessionId && x.response.raterHash == raterHash) {
        var d := DeleteRater(front, sessionId, raterHash);
        assert (d + [x])[..|d|] == d;
      }
    }
  }

  /** The rows a payload inserts for one rater, as other-responses. */
  function ResponsesFor(raterHash: string, relationTag: Option<string>, answers: seq<AnswerItem>): (rs: seq<Agg.OtherResponse>)
    ensures |rs| == |answers|
    ensures forall i :: 0 <= i < |answers| ==>
      rs[i] == Agg.OtherResponse(raterHash, answers[i].questionId, answers[i].value, relationTag)
  {
    seq(|answers|, i requires 0 <= i < |answers| => Agg.OtherResponse(raterHash, answers[i].questionId, answers[i].value, relationTag))
  }

  lemma {:induction false} RaterRowsFresh(sessionId: string, raterHash: string, relationTag: Option<string>,
                                          answers: seq<AnswerItem>, s: string, h: string)
    ensures RaterRows(OtherRowsFor(sessionId, raterHash, relationTag, answers), s, h) ==
      if s == sessionId && h == raterHash then ResponsesFor(raterHash, relationTag, answers) else []
  {
    if |answers| > 0 {
      var n := |answers| - 1;
      assert OtherRowsFor(sessionId, raterHash, relationTag, answers)[..n] == OtherRowsFor(sessionId, raterHash, relationTag, answers[..n]);
      RaterRowsFresh(sessionId, raterHash, relationTag, answers[..n], s, h);
      assert ResponsesFor(raterHash, relationTag, answers) ==
        ResponsesFor(raterHash, relationTag, answers[..n]) + [ResponsesFor(raterHash, relationTag, answers)[n]];
    }
  }

  /** Delete-then-insert of other answers: afterwards the rater's rows in the
    * session are exactly the payload, and every other rater's are as before. */
  lemma OtherReplacement(rows: seq<OtherRow>, sessionId: string, raterHash: string, relationTag: Option<string>,
                         answers: seq<AnswerItem>, s: string, h: string)
    ensures RaterRows(DeleteRater(rows, sessionId, raterHash) + OtherRowsFor(sessionId, raterHash, relationTag, answers), s, h) ==
      if s == sessionId && h == raterHash then ResponsesFor(raterHash, relationTag, answers) else RaterRows(rows, s, h)
  {
    RaterRowsAppend(DeleteRater(rows, sessionId, raterHash), OtherRowsFor(sessionId, raterHash, relationTag, answers), s, h);
    RaterRowsDeleted(rows, sessionId, raterHash, s, h);
    RaterRowsFresh(sessionId, raterHash, relationTag, answers, s, h);
  }

  /** The rater set after replacing one rater's rows: the old raters, less
    * that one, plus that one again when the payload is non-empty. */
  lemma RatersAfterReplacement(rows: seq<OtherRow>, sessionId: string, raterHash: string, relationTag: Option<string>,
                               answers: seq<AnswerItem>)
    ensures RatersOf(DeleteRater(rows, sessionId, raterHash) + OtherRowsFor(sessionId, raterHash, relationTag, answers), sessionId)
         == (RatersOf(rows, sessionId) - {raterHash}) + (if |answers| > 0 then {raterHash} else {})
  {
    var added := OtherRowsFor(sessionId, raterHash, relationTag, answers);
    var after := DeleteRater(rows, sessionId, raterHash) + added;
    if |answers| > 0 {
      assert added[0] in after;
    }
  }

  /** The capacity rule keeps a session at or below max_raters distinct raters. */
  lemma CapacityKept(rows: seq<OtherRow>, sessionId: string, maxRaters: nat, raterHash: string,
                     relationTag: Option<string>, answers: seq<AnswerItem>)
    requires |RatersOf(rows, sessionId)| <= maxRaters
    requires CapacityAllows(rows, sessionId, maxRaters, raterHash)
    ensures |RatersOf(DeleteRater(rows, sessionId, raterHash) + OtherRowsFor(sessionId, raterHash, relationTag, answers), sessionId)| <= maxRaters
  {
    RatersAfterReplacement(rows, sessionId, raterHash, relationTag, answers);
    var before := RatersOf(rows, sessionId);
    var after := (before - {raterHash}) + (if |answers| > 0 then {raterHash} else {});
    if raterHash in before {
      assert after <= before;
    } else {
      assert after <= before + {raterHash};
    }
  }

  /** The response tables (responses_self, responses_other) and the
    * aggregates table that each submission recalculates. */
  class ResponseStore {
    var selfRows: seq<SelfRow>
    var otherRows: seq<OtherRow>
    const aggregates: Agg.AggregateTable

    constructor (aggregates: Agg.AggregateTable)
      ensures selfRows == [] && otherRows == [] && this.aggregates == aggregates
    {
      selfRows := [];
      otherRows := [];
      this.aggregates := aggregates;
    }

    /** submit_self: 404 for an unknown session, 410 once expired, 400 for an
      * invalid answer set; otherwise the session's self rows are replaced by
      * the payload and the aggregate recalculated, and a scoring error rolls
      * the replacement back. */
    method SubmitSelf(session: Option<SessionRecord>, now: int, seeds: seq<QL.QuestionSeed>, lookup: map<int, Keying>,
                      answers: seq<AnswerItem>)
      returns (r: Result<SelfSubmitResponse, SubmitError>)
      modifies this`selfRows, aggregates`rows
      ensures session.None? ==> r == Err(SessionNotFound)
      ensures session.Some? && Expired(session.value.expiresAt, now) ==> r == Err(SessionExpired)
      ensures session.Some? && !Expired(session.value.expiresAt, now) && Validation(seeds, session.value.mode, answers).Err? ==>
              r == Err(ModeUnsupported(Validation(seeds, session.value.mode, answers).error))
      ensures session.Some? && !Expired(session.value.expiresAt, now) && Validation(seeds, session.value.mode, answers).Ok? && Validation(seeds, session.value.mode, answers).value != [] ==>
              r == Err(AnswersInvalid(Validation(seeds, session.value.mode, answers).value))
      ensures session.Some? && !Expired(session.value.expiresAt, now) &&
              Validation(seeds, session.value.mode, answers) == Ok([]) ==>
              var agg := Agg.AggregateOf(session.value.id, session.value.mode, lookup, AnswersFrom(answers),
                                         OtherRowsOf(otherRows, session.value.id));
              (r.Ok? <==> agg.Ok?) && (agg.Err? ==> r == Err(ScoringFailed(agg.error)))
      ensures r.Err? ==> selfRows == old(selfRows) && aggregates.rows == old(aggregates.rows)
      ensures r.Ok? ==>
        var id := session.value.id;
        var agg := Agg.AggregateOf(id, session.value.mode, lookup, AnswersFrom(answers), OtherRowsOf(otherRows, id));
        !Expired(session.value.expiresAt, now) && Validation(seeds, session.value.mode, answers) == Ok([]) &&
        selfRows == DeleteSelf(old(selfRows), id) + SelfRowsFor(id, answers) &&
        agg.Ok? && aggregates.rows == old(aggregates.rows)[id := Agg.RowOf(agg.value)] &&
        r.value == SelfSubmitResponse(id, agg.value.selfNorm, agg.value.radarSelf)
    {
      if session.None? {
        return Err(SessionNotFound);
      }
      var s := session.value;
      if Expired(s.expiresAt, now) {
        return Err(SessionExpired);
      }
      var validated := ValidateAnswers(seeds, s.mode, answers);
      if validated.Err? {
        return Err(ModeUnsupported(validated.error));
      }
      if validated.value != [] {
        return Err(AnswersInvalid(validated.value));
      }
      var saved := selfRows;
      selfRows := DeleteSelf(selfRows, s.id) + SelfRowsFor(s.id, answers);
      SelfReplacement(saved, s.id, answers, s.id);
      var result := aggregates.Recalculate(s.id, s.mode, lookup, SelfAnswersOf(selfRows, s.id), OtherRowsOf(otherRows, s.id));
      if result.Err? {
        selfRows := saved;
        return Err(ScoringFailed(result.error));
      }
      r := Ok(SelfSubmitResponse(s.id, result.value.selfNorm, result.value.radarSelf));
    }

    /** submit_other: 404 for an unknown invite, 410 once expired, 400 for an
      * invalid answer set, 429 for a new rater past capacity; otherwise the
      * rater's rows are replaced by the payload and the aggregate
      * recalculated, and a scoring error rolls the replacement back. */
    method SubmitOther(session: Option<SessionRecord>, now: int, seeds: seq<QL.QuestionSeed>, lookup: map<int, Keying>,
                       sha256: string -> string, raterKey: Option<string>, relationTag: Option<string>,
                       answers: seq<AnswerItem>)
      returns (r: Result<OtherSubmitResponse, SubmitError>)
      modifies this`otherRows, aggregates`rows
      ensures session.None? ==> r == Err(InviteNotFound)
      ensures session.Some? && Expired(session.value.expiresAt, now) ==> r == Err(SessionExpired)
      ensures session.Some? && !Expired(session.value.expiresAt, now) && Validation(seeds, session.value.mode, answers).Err? ==>
              r == Err(ModeUnsupported(Validation(seeds, session.value.mode, answers).error))
      ensures session.Some? && !Expired(session.value.expiresAt, now) && Validation(seeds, session.value.mode, answers).Ok? && Validation(seeds, session.value.mode, answers).value != [] ==>
              r == Err(AnswersInvalid(Validation(seeds, session.value.mode, answers).value))
      ensures session.Some? && !Expired(session.value.expiresAt, now) &&
              Validation(seeds, session.value.mode, answers) == Ok([]) &&
              !CapacityAllows(old(otherRows), session.value.id, session.value.maxRaters,
                              BuildRaterHash(sha256, session.value.inviteToken, raterKey, answers)) ==>
              r == Err(CapacityReached)
      ensures session.Some? && !Expired(session.value.expiresAt, now) &&
              Validation(seeds, session.value.mode, answers) == Ok([]) &&
              CapacityAllows(old(otherRows), session.value.id, session.value.maxRaters,
                             BuildRaterHash(sha256, session.value.inviteToken, raterKey, answers)) ==>
              var id := session.value.id;
              var hash := BuildRaterHash(sha256, session.value.inviteToken, raterKey, answers);
              var agg := Agg.AggregateOf(id, session.value.mode, lookup, SelfAnswersOf(selfRows, id),
                                         OtherRowsOf(DeleteRater(old(otherRows), id, hash) + OtherRowsFor(id, hash, relationTag, answers), id));
              (r.Ok? <==> agg.Ok?) && (agg.Err? ==> r == Err(ScoringFailed(agg.error)))
      ensures r.Err? ==> otherRows == old(otherRows) && aggregates.rows == old(aggregates.rows)
      ensures r.Ok? ==>
        var id := session.value.id;
        var hash := BuildRaterHash(sha256, session.value.inviteToken, raterKey, answers);
        var agg := Agg.AggregateOf(id, session.value.mode, lookup, SelfAnswersOf(selfRows, id), OtherRowsOf(otherRows, id));
        CapacityAllows(old(otherRows), id, session.value.maxRaters, hash) &&
        otherRows == DeleteRater(old(otherRows), id, hash) + OtherRowsFor(id, hash, relationTag, answers) &&
        agg.Ok? && aggregates.rows == old(aggregates.rows)[id := Agg.RowOf(agg.value)] &&
        r.value == OtherSubmitResponse(id, true, agg.value.n)
    {
      if session.None? {
        return Err(InviteNotFound);
      }
      var s := session.value;
      if Expired(s.expiresAt, now) {
        return Err(SessionExpired);
      }
      var validated := ValidateAnswers(seeds, s.mode, answers);
      if validated.Err? {
        return Err(ModeUnsupported(validated.error));
      }
      if validated.value != [] {
        return Err(AnswersInvalid(validated.value));
      }
      var distinctRaters := |RatersOf(otherRows, s.id)|;
      var hash := BuildRaterHash(sha256, s.inviteToken, raterKey, answers);
      var alreadyExists := hash in RatersOf(otherRows, s.id);
      if distinctRaters >= s.maxRaters && !alreadyExists {
        return Err(CapacityReached);
      }
      var saved := otherRows;
      otherRows := DeleteRater(otherRows, s.id, hash) + OtherRowsFor(s.id, hash, relationTag, answers);
      var result := aggregates.Recalculate(s.id, s.mode, lookup, SelfAnswersOf(selfRows, s.id), OtherRowsOf(otherRows, s.id));
      if result.Err? {
        otherRows := saved;
        return Err(ScoringFailed(result.error));
      }
      r := Ok(OtherSubmitResponse(s.id, true, result.value.n));
    }
  }
}
