// The participant flow of app/routers/participants.py: registration under the
// session's rater capacity, answer submission that replaces a participant's
// answers and its "participant:{id}" other responses, the perceived type
// derived from the norms, and the preview that stays masked until three
// respondents have submitted.
module Participants {
  import opened Wrappers
  import opened Schemas
  import opened Scoring
  import Text
  import R = Responses
  import Agg = Aggregator
  import OM = OrderedMaps
  import Q = Questions
  import QL = QuestionnaireLoader

  /** UNLOCK_THRESHOLD. */
  const UnlockThreshold: nat := 3

  // ---------------------------------------------------------------- _compute_mbti

  /** norms.get(dim, 0.0). */
  function AxisValue(norms: map<string, real>, d: Dim): real {
    if DimName(d) in norms then norms[DimName(d)] else 0.0
  }

  function LetterFor(norms: map<string, real>, d: Dim): char {
    if AxisValue(norms, d) >= 0.0 then PositiveLetter(d) else NegativeLetter(d)
  }

  /** The type _compute_mbti spells: one letter per axis, in axis order. */
  function TypeOf(norms: map<string, real>): string {
    [LetterFor(norms, EI), LetterFor(norms, SN), LetterFor(norms, TF), LetterFor(norms, JP)]
  }

  /** _compute_mbti: the letters are appended axis by axis; the result is one
    * of the sixteen valid types, and its letter for an axis is the positive
    * pole exactly when that axis is at least zero (a missing axis counting
    * as zero). */
  method ComputeMbti(norms: map<string, real>) returns (t: string)
    ensures t == TypeOf(norms)
    ensures t in ValidMbtiTypes
    ensures forall d :: t[DimIndex(d)] == PositiveLetter(d) <==> AxisValue(norms, d) >= 0.0
    ensures forall d :: t[DimIndex(d)] == NegativeLetter(d) <==> AxisValue(norms, d) < 0.0
  {
    var letters: seq<char> := [];
    for k := 0 to |Dimensions|
      invariant |letters| == k
      invariant forall j :: 0 <= j < k ==> letters[j] == LetterFor(norms, Dimensions[j])
    {
      var d := Dimensions[k];
      var value := AxisValue(norms, d);
      if value >= 0.0 {
        letters := letters + [PositiveLetter(d)];
      } else {
        letters := letters + [NegativeLetter(d)];
      }
    }
    t := letters;
    assert t == TypeOf(norms);
    ValidTypesAreCombinations(t);
  }

  /** The axes payload stored for a participant: the four norms by axis name. */
  function PayloadOf(norms: Norms): (p: map<string, real>)
    ensures forall d :: DimName(d) in p && p[DimName(d)] == norms.Get(d)
  {
    map["EI" := norms.ei, "SN" := norms.sn, "TF" := norms.tf, "JP" := norms.jp]
  }

  // ---------------------------------------------------------------- the participant table

  /** A Participant row. */
  datatype ParticipantRow = ParticipantRow(
    id: nat, sessionId: string, inviteToken: string, relation: Agg.Relation,
    displayName: Option<string>, consentDisplay: bool,
    perceivedType: Option<string>, axesPayload: Option<map<string, real>>, submittedAt: Option<int>)

  /** A ParticipantAnswer row. */
  datatype AnswerRow = AnswerRow(participantId: nat, questionId: int, value: int)

  datatype ParticipantError =
    | InviteNotFound
    | ParticipantNotFound
    | SessionExpired
    | CapacityReached
    | AnswersMissing
    | ModeUnsupported(modeError: Q.QuestionsError)
    | AnswersInvalid(problems: seq<R.AnswerProblem>)
    | ScoringFailed(cause: ScoringError)

  datatype AnswerSubmitResponse = AnswerSubmitResponse(
    participantId: nat, sessionId: string, relation: Agg.Relation,
    axesPayload: map<string, real>, perceivedType: string,
    respondentCount: nat, unlocked: bool, threshold: nat)

  /** The session's participants, in creation order. */
  function SessionRows(rows: seq<ParticipantRow>, sessionId: string): (r: seq<ParticipantRow>)
    ensures |r| <= |rows|
  {
    if |rows| == 0 then []
    else
      var front := SessionRows(rows[..|rows| - 1], sessionId);
      if rows[|rows| - 1].sessionId == sessionId then front + [rows[|rows| - 1]] else front
  }

  /** The columns of a participant that the relation summary reads. */
  function MemberOf(p: ParticipantRow): Agg.Participant {
    Agg.Participant(p.relation, p.perceivedType, p.axesPayload, p.submittedAt)
  }

  function SessionMembers(rows: seq<ParticipantRow>, sessionId: string): (m: seq<Agg.Participant>)
    ensures |m| == |SessionRows(rows, sessionId)|
  {
    var s := SessionRows(rows, sessionId);
    seq(|s|, i requires 0 <= i < |s| => MemberOf(s[i]))
  }

  /** db.get(Participant, id): the position of the row with that id. */
  function IndexOfId(rows: seq<ParticipantRow>, id: nat): (r: Option<nat>)
    ensures r.Some? ==> r.value < |rows| && rows[r.value].id == id
    ensures r.None? ==> forall i :: 0 <= i < |rows| ==> rows[i].id != id
  {
    if |rows| == 0 then None
    else if rows[|rows| - 1].id == id then Some(|rows| - 1)
    else IndexOfId(rows[..|rows| - 1], id)
  }

  /** _participant_rater_hash. */
  function RaterHashOf(participantId: nat): string {
    "participant:" + Text.IntToString(participantId)
  }

  /** Distinct participants get distinct rater hashes, so replacing one
    * participant's other responses never touches another's. */
  lemma RaterHashInjective(a: nat, b: nat)
    requires RaterHashOf(a) == RaterHashOf(b)
    ensures a == b
  {
    var prefix := "participant:";
    assert RaterHashOf(a)[|prefix|..] == Text.IntToString(a);
    assert RaterHashOf(b)[|prefix|..] == Text.IntToString(b);
    Text.ParseIntToString(a);
    Text.ParseIntToString(b);
  }

  /** The session's participant answers, as (question_id, value) answers. */
  function AnswersOfParticipant(rows: seq<AnswerRow>, participantId: nat): seq<Answer> {
    if |rows| == 0 then []
    else
      var front := AnswersOfParticipant(rows[..|rows| - 1], participantId);
      var r := rows[|rows| - 1];
      if r.participantId == participantId then front + [Answer(r.questionId, r.value)] else front
  }

  /** DELETE FROM participant_answers WHERE participant_id = ... */
  function DeleteAnswers(rows: seq<AnswerRow>, participantId: nat): (r: seq<AnswerRow>)
    ensures forall x :: x in r <==> x in rows && x.participantId != participantId
  {
    if |rows| == 0 then []
    else
      var front := DeleteAnswers(rows[..|rows| - 1], participantId);
      if rows[|rows| - 1].participantId == participantId then front else front + [rows[|rows| - 1]]
  }

  function AnswerRowsFor(participantId: nat, answers: seq<R.AnswerItem>): (rows: seq<AnswerRow>)
    ensures |rows| == |answers|
    ensures forall i :: 0 <= i < |answers| ==> rows[i] == AnswerRow(participantId, answers[i].questionId, answers[i].value)
  {
    seq(|answers|, i requires 0 <= i < |answers| => AnswerRow(participantId, answers[i].questionId, answers[i].value))
  }

  lemma {:induction false} AnswersAppend(a: seq<AnswerRow>, b: seq<AnswerRow>, participantId: nat)
    ensures AnswersOfParticipant(a + b, participantId)
         == AnswersOfParticipant(a, participantId) + AnswersOfParticipant(b, participantId)
  {
    if |b| > 0 {
      var c, n := a + b, |b| - 1;
      assert c[..|c| - 1] == a + b[..n] && c[|c| - 1] == b[n];
      AnswersAppend(a, b[..n], participantId);
      var tail := if b[n].participantId == participantId then [Answer(b[n].questionId, b[n].value)] else [];
      assert AnswersOfParticipant(c, participantId) == AnswersOfParticipant(a + b[..n], participantId) + tail;
      assert AnswersOfParticipant(b, participantId) == AnswersOfParticipant(b[..n], participantId) + tail;
    } else {
      assert a + b == a;
    }
  }

  lemma {:induction false} AnswersDeleted(rows: seq<AnswerRow>, participantId: nat, other: nat)
    ensures AnswersOfParticipant(DeleteAnswers(rows, participantId), other) ==
      if other == participantId then [] else AnswersOfParticipant(rows, other)
  {
    if |rows| > 0 {
      var front := rows[..|rows| - 1];
      AnswersDeleted(front, participantId, other);
      if rows[|rows| - 1].participantId != participantId {
        var d := DeleteAnswers(front, participantId);
        assert (d + [rows[|rows| - 1]])[..|d|] == d;
      }
    }
  }

  lemma {:induction false} AnswersFresh(participantId: nat, other: nat, answers: seq<R.AnswerItem>)
    ensures AnswersOfParticipant(AnswerRowsFor(participantId, answers), other) ==
      if other == participantId then R.AnswersFrom(answers) else []
  {
    if |answers| > 0 {
      var n := |answers| - 1;
      assert AnswerRowsFor(participantId, answers)[..n] == AnswerRowsFor(participantId, answers[..n]);
      AnswersFresh(participantId, other, answers[..n]);
      assert R.AnswersFrom(answers) == R.AnswersFrom(answers[..n]) + [R.AnswersFrom(answers)[n]];
    }
  }

  /** Resubmission replaces rather than adds: afterwards the participant's
    * answers are exactly the payload, and every other participant's are as
    * before. */
  lemma AnswerReplacement(rows: seq<AnswerRow>, participantId: nat, answers: seq<R.AnswerItem>, other: nat)
    ensures AnswersOfParticipant(DeleteAnswers(rows, participantId) + AnswerRowsFor(participantId, answers), other) ==
      if other == participantId then R.AnswersFrom(answers) else AnswersOfParticipant(rows, other)
  {
    AnswersAppend(DeleteAnswers(rows, participantId), AnswerRowsFor(participantId, answers), other);
    AnswersDeleted(rows, participantId, other);
    AnswersFresh(participantId, other, answers);
  }

  /** Appending a participant extends its session's list by that row and no
    * other session's list. */
  lemma SessionRowsSnoc(rows: seq<ParticipantRow>, row: ParticipantRow, sessionId: string)
    ensures SessionRows(rows + [row], sessionId) ==
      if row.sessionId == sessionId then SessionRows(rows, sessionId) + [row] else SessionRows(rows, sessionId)
  {
    assert (rows + [row])[..|rows|] == rows;
  }

  /** Updating a row in place, keeping its session, leaves every session's
    * participant count as it was. */
  lemma {:induction false} SessionRowsUpdate(rows: seq<ParticipantRow>, i: nat, row: ParticipantRow, sessionId: string)
    requires i < |rows| && row.sessionId == rows[i].sessionId
    ensures |SessionRows(rows[i := row], sessionId)| == |SessionRows(rows, sessionId)|
  {
    var n := |rows| - 1;
    var updated := rows[i := row];
    if i < n {
      assert updated[..n] == rows[..n][i := row];
      SessionRowsUpdate(rows[..n], i, row, sessionId);
    } else {
      assert updated[..n] == rows[..n];
    }
  }

  predicate IdsBelow(rows: seq<ParticipantRow>, bound: nat) {
    forall i :: 0 <= i < |rows| ==> rows[i].id < bound
  }

  /** Rewriting a row in place, keeping its id, keeps every id below the bound. */
  lemma IdsBelowUpdate(rows: seq<ParticipantRow>, i: nat, row: ParticipantRow, bound: nat)
    requires IdsBelow(rows, bound) && i < |rows| && row.id == rows[i].id
    ensures IdsBelow(rows[i := row], bound)
  {
  }

  // ---------------------------------------------------------------- the preview

  predicate Unlocked(respondents: nat) {
    respondents >= UnlockThreshold
  }

  /** A relation summary as the preview shows it: past the unlock threshold
    * as computed, below it with every field but the relation and its count
    * nulled. */
  function MaskRelation(s: Agg.RelationSummary, unlocked: bool): Agg.RelationSummary {
    if unlocked then s else Agg.RelationSummary(s.relation, s.respondentCount, None, None, None, None, None, None, None)
  }

  datatype PreviewParticipant = PreviewParticipant(
    participantId: nat, displayName: Option<string>, relation: Agg.Relation, consentDisplay: bool,
    submittedAt: Option<int>, perceivedType: Option<string>, axesPayload: Option<map<string, real>>)

  function MaskParticipant(p: ParticipantRow, unlocked: bool): PreviewParticipant {
    PreviewParticipant(p.id, p.displayName, p.relation, p.consentDisplay, p.submittedAt,
                       if unlocked then p.perceivedType else None, if unlocked then p.axesPayload else None)
  }

  datatype PreviewResponse = PreviewResponse(
    sessionId: string, inviteToken: string, respondentCount: nat, threshold: nat, unlocked: bool,
    relations: seq<Agg.RelationSummary>, participants: seq<PreviewParticipant>)

  /** participant_preview, given the recalculated relation summaries and the
    * session's participants in creation order. */
  function Preview(sessionId: string, inviteToken: string, relations: seq<Agg.RelationSummary>,
                   participants: seq<ParticipantRow>): (p: PreviewResponse)
    ensures p.respondentCount == Agg.TotalRespondents(relations) && p.threshold == UnlockThreshold
    ensures p.unlocked <==> Agg.TotalRespondents(relations) >= UnlockThreshold
    ensures |p.relations| == |relations| && |p.participants| == |participants|
    ensures forall i :: 0 <= i < |relations| ==>
      p.relations[i].relation == relations[i].relation && p.relations[i].respondentCount == relations[i].respondentCount &&
      (p.unlocked ==> p.relations[i] == relations[i]) &&
      (!p.unlocked ==> Hidden(p.relations[i]))
    ensures forall i :: 0 <= i < |participants| ==>
      p.participants[i].participantId == participants[i].id && p.participants[i].submittedAt == participants[i].submittedAt &&
      (p.unlocked ==> p.participants[i].perceivedType == participants[i].perceivedType &&
                      p.participants[i].axesPayload == participants[i].axesPayload) &&
      (!p.unlocked ==> p.participants[i].perceivedType.None? && p.participants[i].axesPayload.None?)
  {
    var respondents := Agg.TotalRespondents(relations);
    var unlocked := Unlocked(respondents);
    PreviewResponse(sessionId, inviteToken, respondents, UnlockThreshold, unlocked,
                    seq(|relations|, i requires 0 <= i < |relations| => MaskRelation(relations[i], unlocked)),
                    seq(|participants|, i requires 0 <= i < |participants| => MaskParticipant(participants[i], unlocked)))
  }

  /** Every field a summary could reveal is None. */
  predicate Hidden(s: Agg.RelationSummary) {
    s.topType.None? && s.topFraction.None? && s.secondType.None? && s.secondFraction.None? &&
    s.consensus.None? && s.pgi.None? && s.axesPayload.None?
  }

  /** The two gates together: a preview of the session's recalculated
    * summaries shows a relation's figures only when the session has at least
    * three respondents overall and that relation has at least three itself. */
  lemma PreviewRevealsOnlyGated(sessionId: string, inviteToken: string, members: seq<Agg.Participant>,
                                selfNorm: Option<Norms>, participants: seq<ParticipantRow>)
    ensures var p := Preview(sessionId, inviteToken, Agg.RelationSummariesOf(members, selfNorm), participants);
      forall i :: 0 <= i < |p.relations| && !Hidden(p.relations[i]) ==>
        p.respondentCount >= UnlockThreshold && p.relations[i].respondentCount >= Agg.RelationMinRespondents
  {
    var relations := Agg.RelationSummariesOf(members, selfNorm);
    var p := Preview(sessionId, inviteToken, relations, participants);
    Agg.AllGated(members, selfNorm);
    forall i | 0 <= i < |p.relations| && !Hidden(p.relations[i])
      ensures p.respondentCount >= UnlockThreshold && p.relations[i].respondentCount >= Agg.RelationMinRespondents
    {
      assert relations[i] in relations;
    }
  }

  // ---------------------------------------------------------------- the endpoints

  /** The participant tables, with the response and aggregate tables that a
    * submission rewrites. */
  class ParticipantStore {
    var participants: seq<ParticipantRow>
    var answerRows: seq<AnswerRow>
    var nextId: nat
    const responses: R.ResponseStore
    const relationAggregates: Agg.RelationAggregateTable

    /** Ids are handed out in increasing order, so they are unique and the
      * table is in creation order. */
    predicate Valid()
      reads this`participants, this`nextId
    {
      IdsBelow(participants, nextId)
    }

    constructor (responses: R.ResponseStore, relationAggregates: Agg.RelationAggregateTable)
      ensures participants == [] && answerRows == [] && nextId == 0 && Valid()
      ensures this.responses == responses && this.relationAggregates == relationAggregates
    {
      participants := [];
      answerRows := [];
      nextId := 0;
      this.responses := responses;
      this.relationAggregates := relationAggregates;
    }

    /** register_participant: 404 for an unknown invite, 410 once expired,
      * 429 once the session has max_raters participants; otherwise a new
      * participant with the next id and no answers is appended. */
    method Register(session: Option<R.SessionRecord>, inviteToken: string, now: int, relation: Agg.Relation,
                    displayName: Option<string>, consentDisplay: bool)
      returns (r: Result<ParticipantRow, ParticipantError>)
      requires Valid()
      modifies this`participants, this`nextId
      ensures Valid()
      ensures session.None? ==> r == Err(InviteNotFound)
      ensures session.Some? && R.Expired(session.value.expiresAt, now) ==> r == Err(SessionExpired)
      ensures (session.Some? && !R.Expired(session.value.expiresAt, now) &&
               |SessionRows(old(participants), session.value.id)| >= session.value.maxRaters) ==> r == Err(CapacityReached)
      ensures (session.Some? && !R.Expired(session.value.expiresAt, now) &&
               |SessionRows(old(participants), session.value.id)| < session.value.maxRaters) ==> r.Ok?
      ensures r.Err? ==> participants == old(participants) && nextId == old(nextId)
      ensures r.Ok? ==>
        r.value == ParticipantRow(old(nextId), session.value.id, inviteToken, relation, displayName, consentDisplay, None, None, None) &&
        participants == old(participants) + [r.value] && nextId == old(nextId) + 1 &&
        |SessionRows(participants, session.value.id)| == |SessionRows(old(participants), session.value.id)| + 1 &&
        |SessionRows(participants, session.value.id)| <= session.value.maxRaters
    {
      if session.None? {
        return Err(InviteNotFound);
      }
      var s := session.value;
      if R.Expired(s.expiresAt, now) {
        return Err(SessionExpired);
      }
      var currentCount := |SessionRows(participants, s.id)|;
      if currentCount >= s.maxRaters {
        return Err(CapacityReached);
      }
      var row := ParticipantRow(nextId, s.id, inviteToken, relation, displayName, consentDisplay, None, None, None);
      SessionRowsSnoc(participants, row, s.id);
      participants := participants + [row];
      nextId := nextId + 1;
      r := Ok(row);
    }

    /** submit_participant_answers: 404 for an unknown participant, 410 once
      * the session expired, 400 for an empty or invalid answer set; then the
      * participant's answers and its other responses are replaced by the
      * payload, its norms, perceived type and submission time recorded, and
      * both aggregates recalculated. The writes form one transaction: a
      * scoring error, from the payload or from the aggregate, leaves every
      * table as it was. */
    method Submit(participantId: nat, sessions: map<string, R.SessionRecord>, now: int, seeds: seq<QL.QuestionSeed>,
                  lookup: map<int, Keying>, answers: seq<R.AnswerItem>)
      returns (r: Result<AnswerSubmitResponse, ParticipantError>)
      requires Valid()
      requires forall i :: 0 <= i < |participants| ==> participants[i].sessionId in sessions
      modifies this`participants, this`answerRows, responses`otherRows, responses.aggregates`rows, relationAggregates`records
      ensures Valid()
      ensures var plan := PlanOf(old(participants), old(answerRows), old(responses.otherRows), participantId, sessions, now,
                                 seeds, lookup, answers);
        plan.Err? ==> r == Err(plan.error)
      ensures var plan := PlanOf(old(participants), old(answerRows), old(responses.otherRows), participantId, sessions, now,
                                 seeds, lookup, answers);
        plan.Ok? ==>
        var sessionId := plan.value.scored.sessionId;
        var agg := Agg.AggregateOf(sessionId, sessions[sessionId].mode, lookup, R.SelfAnswersOf(responses.selfRows, sessionId),
                                   R.OtherRowsOf(plan.value.otherRows, sessionId));
        (r.Ok? <==> agg.Ok?) && (agg.Err? ==> r == Err(ScoringFailed(agg.error)))
      ensures r.Err? ==>
        participants == old(participants) && answerRows == old(answerRows) &&
        responses.otherRows == old(responses.otherRows) && responses.aggregates.rows == old(responses.aggregates.rows) &&
        relationAggregates.records == old(relationAggregates.records)
      ensures r.Ok? ==>
        var plan := PlanOf(old(participants), old(answerRows), old(responses.otherRows), participantId, sessions, now,
                           seeds, lookup, answers);
        plan.Ok? && Committed(plan.value, old(participants), lookup, r.value) &&
        Recalculated(plan.value.scored.sessionId, sessions[plan.value.scored.sessionId].mode, lookup,
                     old(responses.aggregates.rows), old(relationAggregates.records))
    {
      var planned := MakePlan(participants, answerRows, responses.otherRows, participantId, sessions, now,
                              seeds, lookup, answers);
      if planned.Err? {
        return Err(planned.error);
      }
      r := Commit(planned.value, sessions[planned.value.scored.sessionId].mode, lookup);
    }

    /** The state and response after a plan has been written and the
      * aggregates recalculated. */
    predicate Committed(plan: Plan, oldRows: seq<ParticipantRow>, lookup: map<int, Keying>, response: AnswerSubmitResponse)
      reads this`participants, this`answerRows, responses`otherRows, responses`selfRows
      requires plan.index < |oldRows| && plan.scored.perceivedType.Some? && plan.scored.axesPayload.Some?
    {
      var sessionId := plan.scored.sessionId;
      var selfNorm := NormsOf(R.SelfAnswersOf(responses.selfRows, sessionId), lookup);
      participants == oldRows[plan.index := plan.scored] &&
      answerRows == plan.answerRows && responses.otherRows == plan.otherRows &&
      response.participantId == plan.scored.id && response.sessionId == sessionId &&
      response.relation == plan.scored.relation && response.axesPayload == plan.scored.axesPayload.value &&
      response.perceivedType == plan.scored.perceivedType.value && response.threshold == UnlockThreshold &&
      selfNorm.Ok? &&
      response.respondentCount == Agg.TotalRespondents(Agg.RelationSummariesOf(SessionMembers(participants, sessionId), Some(selfNorm.value))) &&
      (response.unlocked <==> response.respondentCount >= UnlockThreshold)
    }

    /** The session's aggregate row and relation records after both
      * recalculations over the tables as they now stand. */
    predicate Recalculated(sessionId: string, mode: string, lookup: map<int, Keying>,
                           oldAggregates: map<string, Agg.AggregateRow>, oldRecords: map<(string, Agg.Relation), Agg.RelationSummary>)
      reads this`participants, responses`otherRows, responses`selfRows, responses.aggregates`rows, relationAggregates`records
    {
      var selfAnswers := R.SelfAnswersOf(responses.selfRows, sessionId);
      var aggregate := Agg.AggregateOf(sessionId, mode, lookup, selfAnswers, R.OtherRowsOf(responses.otherRows, sessionId));
      aggregate.Ok? &&
      responses.aggregates.rows == oldAggregates[sessionId := Agg.RowOf(aggregate.value)] &&
      relationAggregates.records ==
        Agg.StoreSummaries(oldRecords, sessionId,
                           Agg.GroupSummaries(OM.GroupBy(SessionMembers(participants, sessionId), Agg.RelationOf),
                                              Some(aggregate.value.selfNorm)))
    }

    /** The write half of submit_participant_answers: store the planned rows,
      * recalculate both aggregates, and roll everything back on a scoring
      * error. */
    method Commit(plan: Plan, mode: string, lookup: map<int, Keying>)
      returns (r: Result<AnswerSubmitResponse, ParticipantError>)
      requires Valid() && plan.index < |participants| && plan.scored.id == participants[plan.index].id
      requires plan.scored.sessionId == participants[plan.index].sessionId
      requires plan.scored.perceivedType.Some? && plan.scored.axesPayload.Some?
      modifies this`participants, this`answerRows, responses`otherRows, responses.aggregates`rows, relationAggregates`records
      ensures Valid()
      ensures r.Err? ==>
        participants == old(participants) && answerRows == old(answerRows) &&
        responses.otherRows == old(responses.otherRows) && responses.aggregates.rows == old(responses.aggregates.rows) &&
        relationAggregates.records == old(relationAggregates.records)
      ensures var agg := Agg.AggregateOf(plan.scored.sessionId, mode, lookup, R.SelfAnswersOf(responses.selfRows, plan.scored.sessionId),
                                         R.OtherRowsOf(plan.otherRows, plan.scored.sessionId));
        (r.Ok? <==> agg.Ok?) && (agg.Err? ==> r == Err(ScoringFailed(agg.error)))
      ensures r.Ok? ==> Committed(plan, old(participants), lookup, r.value)
      ensures r.Ok? ==>
        Recalculated(plan.scored.sessionId, mode, lookup, old(responses.aggregates.rows), old(relationAggregates.records))
    {
      var sessionId := plan.scored.sessionId;
      var newParticipants := participants[plan.index := plan.scored];
      IdsBelowUpdate(participants, plan.index, plan.scored, nextId);
      var selfAnswers := R.SelfAnswersOf(responses.selfRows, sessionId);
      var relations := Recompute(sessionId, mode, lookup, selfAnswers,
                                 R.OtherRowsOf(plan.otherRows, sessionId), SessionMembers(newParticipants, sessionId));
      if relations.Err? {
        return Err(ScoringFailed(relations.error));
      }
      participants, answerRows, responses.otherRows := newParticipants, plan.answerRows, plan.otherRows;
      var respondents := Agg.TotalRespondents(relations.value);
      r := Ok(AnswerSubmitResponse(plan.scored.id, sessionId, plan.scored.relation, plan.scored.axesPayload.value,
                                   plan.scored.perceivedType.value, respondents, respondents >= UnlockThreshold, UnlockThreshold));
    }

    /** recalculate_aggregate then recalculate_relation_aggregates, the latter
      * reading the self norm the former stored; an error from the first
      * writes nothing. */
    method Recompute(sessionId: string, mode: string, lookup: map<int, Keying>, selfAnswers: seq<Answer>,
                     otherRows: seq<Agg.OtherResponse>, members: seq<Agg.Participant>)
      returns (r: Result<seq<Agg.RelationSummary>, ScoringError>)
      modifies responses.aggregates`rows, relationAggregates`records
      ensures var agg := Agg.AggregateOf(sessionId, mode, lookup, selfAnswers, otherRows);
        (r.Err? <==> agg.Err?) && (r.Err? ==> r.error == agg.error)
      ensures r.Err? ==>
        responses.aggregates.rows == old(responses.aggregates.rows) && relationAggregates.records == old(relationAggregates.records)
      ensures r.Ok? ==>
        var agg := Agg.AggregateOf(sessionId, mode, lookup, selfAnswers, otherRows);
        var selfNorm := NormsOf(selfAnswers, lookup);
        selfNorm.Ok? && agg.value.selfNorm == selfNorm.value &&
        r.value == Agg.RelationSummariesOf(members, Some(selfNorm.value)) &&
        responses.aggregates.rows == old(responses.aggregates.rows)[sessionId := Agg.RowOf(agg.value)] &&
        relationAggregates.records ==
          Agg.StoreSummaries(old(relationAggregates.records), sessionId,
                             Agg.GroupSummaries(OM.GroupBy(members, Agg.RelationOf), Some(selfNorm.value)))
    {
      var aggregate := responses.aggregates.Recalculate(sessionId, mode, lookup, selfAnswers, otherRows);
      if aggregate.Err? {
        return Err(aggregate.error);
      }
      Agg.AggregateShape(sessionId, mode, lookup, selfAnswers, otherRows);
      var relations := relationAggregates.Recalculate(sessionId, true, Some(aggregate.value.selfNorm), selfAnswers, lookup, members);
      r := Ok(relations);
    }
  }

  /** The writes a submission makes when its checks and its scoring pass:
    * the participant's position and scored row, and the new answer and
    * other-response tables. */
  datatype Plan = Plan(index: nat, scored: ParticipantRow, answerRows: seq<AnswerRow>, otherRows: seq<R.OtherRow>)

  /** What submit_participant_answers writes, or the error it raises before
    * the aggregate recalculation. */
  function PlanOf(rows: seq<ParticipantRow>, answerRows: seq<AnswerRow>, otherRows: seq<R.OtherRow>, participantId: nat,
                  sessions: map<string, R.SessionRecord>, now: int, seeds: seq<QL.QuestionSeed>, lookup: map<int, Keying>,
                  answers: seq<R.AnswerItem>): (r: Result<Plan, ParticipantError>)
    requires forall i :: 0 <= i < |rows| ==> rows[i].sessionId in sessions
    ensures r.Ok? ==>
      r.value.index < |rows| && r.value.scored.id == rows[r.value.index].id == participantId &&
      r.value.scored.sessionId == rows[r.value.index].sessionId && r.value.scored.sessionId in sessions &&
      r.value.scored.perceivedType.Some? && r.value.scored.axesPayload.Some?
  {
    match Admission(rows, participantId, sessions, now, seeds, answers)
    case Err(e) => Err(e)
    case Ok(i) =>
      match NormsOf(R.AnswersFrom(answers), lookup)
      case Err(e) => Err(ScoringFailed(e))
      case Ok(norms) =>
        Ok(Plan(i, Scored(rows[i], norms, now),
                DeleteAnswers(answerRows, participantId) + AnswerRowsFor(participantId, answers),
                ReplacedOthers(otherRows, rows[i], answers)))
  }

  method MakePlan(rows: seq<ParticipantRow>, answerRows: seq<AnswerRow>, otherRows: seq<R.OtherRow>, participantId: nat,
                  sessions: map<string, R.SessionRecord>, now: int, seeds: seq<QL.QuestionSeed>, lookup: map<int, Keying>,
                  answers: seq<R.AnswerItem>) returns (r: Result<Plan, ParticipantError>)
    requires forall i :: 0 <= i < |rows| ==> rows[i].sessionId in sessions
    ensures r == PlanOf(rows, answerRows, otherRows, participantId, sessions, now, seeds, lookup, answers)
  {
    var admitted := Admit(rows, participantId, sessions, now, seeds, answers);
    if admitted.Err? {
      return Err(admitted.error);
    }
    var i := admitted.value;
    var norms := ComputeNorms(R.AnswersFrom(answers), lookup);
    if norms.Err? {
      return Err(ScoringFailed(norms.error));
    }
    var payload := PayloadOf(norms.value);
    var perceived := ComputeMbti(payload);
    var scored := rows[i].(perceivedType := Some(perceived), axesPayload := Some(payload), submittedAt := Some(now));
    r := Ok(Plan(i, scored, DeleteAnswers(answerRows, participantId) + AnswerRowsFor(participantId, answers),
                 ReplacedOthers(otherRows, rows[i], answers)));
  }

  /** The checks submit_participant_answers makes before writing, in order:
    * the participant exists, its session is active, the payload is non-empty
    * and it passes validate_answers. On success, the participant's position. */
  function Admission(rows: seq<ParticipantRow>, participantId: nat, sessions: map<string, R.SessionRecord>, now: int,
                     seeds: seq<QL.QuestionSeed>, answers: seq<R.AnswerItem>): (r: Result<nat, ParticipantError>)
    requires forall i :: 0 <= i < |rows| ==> rows[i].sessionId in sessions
    ensures r.Ok? ==>
      r.value < |rows| && rows[r.value].id == participantId &&
      !R.Expired(sessions[rows[r.value].sessionId].expiresAt, now) && |answers| > 0 &&
      R.Validation(seeds, sessions[rows[r.value].sessionId].mode, answers) == Ok([])
  {
    match IndexOfId(rows, participantId)
    case None => Err(ParticipantNotFound)
    case Some(i) =>
      if R.Expired(sessions[rows[i].sessionId].expiresAt, now) then Err(SessionExpired)
      else if |answers| == 0 then Err(AnswersMissing)
      else
        match R.Validation(seeds, sessions[rows[i].sessionId].mode, answers)
        case Err(e) => Err(ModeUnsupported(e))
        case Ok(problems) => if problems != [] then Err(AnswersInvalid(problems)) else Ok(i)
  }

  method Admit(rows: seq<ParticipantRow>, participantId: nat, sessions: map<string, R.SessionRecord>, now: int,
               seeds: seq<QL.QuestionSeed>, answers: seq<R.AnswerItem>) returns (r: Result<nat, ParticipantError>)
    requires forall i :: 0 <= i < |rows| ==> rows[i].sessionId in sessions
    ensures r == Admission(rows, participantId, sessions, now, seeds, answers)
  {
    var found := IndexOfId(rows, participantId);
    if found.None? {
      return Err(ParticipantNotFound);
    }
    var i := found.value;
    if R.Expired(sessions[rows[i].sessionId].expiresAt, now) {
      return Err(SessionExpired);
    }
    if |answers| == 0 {
      return Err(AnswersMissing);
    }
    var validated := R.ValidateAnswers(seeds, sessions[rows[i].sessionId].mode, answers);
    if validated.Err? {
      return Err(ModeUnsupported(validated.error));
    }
    if validated.value != [] {
      return Err(AnswersInvalid(validated.value));
    }
    return Ok(i);
  }

  /** The participant after a successful submission: its norms as the axes
    * payload, the type they spell, and the submission time. */
  function Scored(p: ParticipantRow, norms: Norms, now: int): ParticipantRow {
    p.(perceivedType := Some(TypeOf(PayloadOf(norms))), axesPayload := Some(PayloadOf(norms)), submittedAt := Some(now))
  }

  /** The other responses with the participant's rows replaced by the payload,
    * tagged with the participant's relation. */
  function ReplacedOthers(rows: seq<R.OtherRow>, p: ParticipantRow, answers: seq<R.AnswerItem>): seq<R.OtherRow> {
    R.DeleteRater(rows, p.sessionId, RaterHashOf(p.id)) +
    R.OtherRowsFor(p.sessionId, RaterHashOf(p.id), Some(Agg.RelationValue(p.relation)), answers)
  }
}
