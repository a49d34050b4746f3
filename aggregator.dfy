// The aggregator of the perception-gap service (app/services/aggregator.py):
// other raters' rows grouped by rater and folded into a weighted aggregate
// beside the self norms, and per-relation summaries that stay hidden until
// a relation has three respondents.
module Aggregator {
  import opened Wrappers
  import opened Schemas
  import opened Scoring
  import OM = OrderedMaps
  import Sorting

  // ================================================================ the aggregate

  /** One stored other-response row (responses_other). */
  datatype OtherResponse = OtherResponse(raterHash: string, questionId: int, value: int, relationTag: Option<string>)

  function RaterHash(r: OtherResponse): string {
    r.raterHash
  }

  /** The defaultdict(list) loop shared by group_other_responses and the
    * relations_map of recalculate_relation_aggregates. */
  method GroupInto<T, K(==)>(xs: seq<T>, key: T -> K) returns (grouped: seq<(K, seq<T>)>)
    ensures grouped == OM.GroupBy(xs, key)
  {
    grouped := [];
    for i := 0 to |xs|
      invariant grouped == OM.GroupBy(xs[..i], key)
    {
      assert xs[..i + 1][..i] == xs[..i];
      var k := key(xs[i]);
      grouped := OM.Put(grouped, k, OM.Get(grouped, k, []) + [xs[i]]);
    }
    assert xs[..|xs|] == xs;
  }

  /** [(row.question_id, row.value) for row in rows]. */
  function AnswersOf(rows: seq<OtherResponse>): (answers: seq<Answer>)
    ensures |answers| == |rows|
    ensures forall i :: 0 <= i < |rows| ==> answers[i] == Answer(rows[i].questionId, rows[i].value)
  {
    seq(|rows|, i requires 0 <= i < |rows| => Answer(rows[i].questionId, rows[i].value))
  }

  /** rows[0].relation_tag if rows else None. */
  function FirstTag(rows: seq<OtherResponse>): Option<string> {
    if |rows| > 0 then rows[0].relationTag else None
  }

  /** The norms of the rater groups compute_norms accepts, in group order;
    * a group it refuses is skipped. */
  function SurvivingNorms(groups: seq<(string, seq<OtherResponse>)>, lookup: map<int, Keying>): seq<Norms> {
    if |groups| == 0 then []
    else
      var front := SurvivingNorms(groups[..|groups| - 1], lookup);
      var norms := NormsOf(AnswersOf(groups[|groups| - 1].1), lookup);
      if norms.Ok? then front + [norms.value] else front
  }

  /** The relation weight of each surviving group, beside its norms. */
  function SurvivingWeights(groups: seq<(string, seq<OtherResponse>)>, lookup: map<int, Keying>): (ws: seq<real>)
    ensures |ws| == |SurvivingNorms(groups, lookup)|
    ensures forall k :: 0 <= k < |ws| ==> 1.0 <= ws[k] <= 1.5
  {
    if |groups| == 0 then []
    else
      var front := SurvivingWeights(groups[..|groups| - 1], lookup);
      var last := groups[|groups| - 1].1;
      if NormsOf(AnswersOf(last), lookup).Ok? then front + [WeightForRelation(FirstTag(last))] else front
  }

  /** The rater loop of recalculate_aggregate: a group whose answers
    * compute_norms refuses is skipped, not fatal. */
  method CollectRaters(groups: seq<(string, seq<OtherResponse>)>, lookup: map<int, Keying>)
    returns (otherNorms: seq<Norms>, weights: seq<real>)
    ensures otherNorms == SurvivingNorms(groups, lookup)
    ensures weights == SurvivingWeights(groups, lookup)
  {
    otherNorms, weights := [], [];
    for i := 0 to |groups|
      invariant otherNorms == SurvivingNorms(groups[..i], lookup)
      invariant weights == SurvivingWeights(groups[..i], lookup)
    {
      assert groups[..i + 1][..i] == groups[..i];
      var rows := groups[i].1;
      var norms := ComputeNorms(AnswersOf(rows), lookup);
      if norms.Ok? {
        otherNorms := otherNorms + [norms.value];
        weights := weights + [WeightForRelation(FirstTag(rows))];
      }
    }
    assert groups[..|groups|] == groups;
  }

  /** The k-th surviving norm is the accepted norm of some group, paired with
    * the weight of that group's first relation tag. */
  lemma {:induction false} SurvivorOrigin(groups: seq<(string, seq<OtherResponse>)>, lookup: map<int, Keying>, k: nat)
    requires k < |SurvivingNorms(groups, lookup)|
    ensures exists i :: (0 <= i < |groups| &&
      NormsOf(AnswersOf(groups[i].1), lookup) == Ok(SurvivingNorms(groups, lookup)[k]) &&
      SurvivingWeights(groups, lookup)[k] == WeightForRelation(FirstTag(groups[i].1)))
  {
    var n := |groups| - 1;
    var front := groups[..n];
    if k < |SurvivingNorms(front, lookup)| {
      SurvivorOrigin(front, lookup, k);
      var i :| 0 <= i < |front| &&
        NormsOf(AnswersOf(front[i].1), lookup) == Ok(SurvivingNorms(front, lookup)[k]) &&
        SurvivingWeights(front, lookup)[k] == WeightForRelation(FirstTag(front[i].1));
      assert groups[i] == front[i];
    } else {
      assert NormsOf(AnswersOf(groups[n].1), lookup) == Ok(SurvivingNorms(groups, lookup)[k]);
    }
  }

  /** At most every rater survives, and every rater does when compute_norms
    * accepts them all. */
  lemma {:induction false} SurvivorCount(groups: seq<(string, seq<OtherResponse>)>, lookup: map<int, Keying>)
    ensures |SurvivingNorms(groups, lookup)| <= |groups|
    ensures (forall i :: 0 <= i < |groups| ==> NormsOf(AnswersOf(groups[i].1), lookup).Ok?) ==>
      |SurvivingNorms(groups, lookup)| == |groups|
  {
    if |groups| > 0 {
      var front := groups[..|groups| - 1];
      assert forall i :: 0 <= i < |front| ==> front[i] == groups[i];
      SurvivorCount(front, lookup);
    }
  }

  /** The AggregateResult of recalculate_aggregate; `variance` holds sigma
    * squared, and the radar views are kept without their rounding. */
  datatype AggregateResult = AggregateResult(
    sessionId: string, mode: string,
    selfNorm: Norms, radarSelf: Norms,
    otherNorm: Option<Norms>, radarOther: Option<Norms>,
    gap: Option<Norms>, variance: Option<Norms>,
    n: nat, gapScore: Option<real>)

  /** What recalculate_aggregate returns or raises, given the question lookup,
    * the session's self rows and its other rows. */
  function AggregateOf(sessionId: string, mode: string, lookup: map<int, Keying>,
                       selfAnswers: seq<Answer>, otherRows: seq<OtherResponse>): Result<AggregateResult, ScoringError>
  {
    if |selfAnswers| == 0 then Err(SelfResponsesMissing)
    else
      match NormsOf(selfAnswers, lookup)
      case Err(e) => Err(e)
      case Ok(selfNorm) =>
        var groups := OM.GroupBy(otherRows, RaterHash);
        var others := SurvivingNorms(groups, lookup);
        var bare := AggregateResult(sessionId, mode, selfNorm, NormToRadar(selfNorm), None, None, None, None, 0, None);
        if |others| == 0 then Ok(bare)
        else
          var m := GapMetricsOf(selfNorm, others, SurvivingWeights(groups, lookup)).value;
          Ok(bare.(otherNorm := Some(m.aggOther), radarOther := Some(NormToRadar(m.aggOther)),
                   gap := Some(m.gap), variance := Some(m.variance), n := |others|, gapScore := Some(m.gapScore)))
  }

  /** recalculate_aggregate fails exactly when the session has no self rows
    * (SelfResponsesMissing) or they do not score; on success the five
    * other-side fields are all present or all absent, absent exactly when no
    * rater survives, and n counts the surviving raters. */
  lemma AggregateShape(sessionId: string, mode: string, lookup: map<int, Keying>,
                       selfAnswers: seq<Answer>, otherRows: seq<OtherResponse>)
    ensures var r := AggregateOf(sessionId, mode, lookup, selfAnswers, otherRows);
      (r.Err? <==> |selfAnswers| == 0 || NormsOf(selfAnswers, lookup).Err?) &&
      (|selfAnswers| == 0 ==> r == Err(SelfResponsesMissing))
    ensures var r := AggregateOf(sessionId, mode, lookup, selfAnswers, otherRows);
      r.Ok? ==>
        r.value.selfNorm == NormsOf(selfAnswers, lookup).value &&
        r.value.n == |SurvivingNorms(OM.GroupBy(otherRows, RaterHash), lookup)| &&
        (r.value.otherNorm.None? <==> r.value.n == 0) &&
        r.value.radarOther.None? == r.value.otherNorm.None? &&
        r.value.gap.None? == r.value.otherNorm.None? &&
        r.value.variance.None? == r.value.otherNorm.None? &&
        r.value.gapScore.None? == r.value.otherNorm.None?
  {
  }

  /** With keying signs of ±1, every populated aggregate axis lies in
    * [-1, 1] and the gap score in [0, 200]. */
  lemma AggregateBounded(sessionId: string, mode: string, lookup: map<int, Keying>,
                         selfAnswers: seq<Answer>, otherRows: seq<OtherResponse>)
    requires UnitSigns(lookup)
    ensures var r := AggregateOf(sessionId, mode, lookup, selfAnswers, otherRows);
      r.Ok? && r.value.otherNorm.Some? ==>
        (forall d :: -1.0 <= r.value.otherNorm.value.Get(d) <= 1.0) &&
        0.0 <= r.value.gapScore.value <= 200.0
  {
    var r := AggregateOf(sessionId, mode, lookup, selfAnswers, otherRows);
    if r.Ok? && r.value.otherNorm.Some? {
      var groups := OM.GroupBy(otherRows, RaterHash);
      var others, weights := SurvivingNorms(groups, lookup), SurvivingWeights(groups, lookup);
      var selfNorm := NormsOf(selfAnswers, lookup).value;
      forall k, e | 0 <= k < |others| ensures -1.0 <= others[k].Get(e) <= 1.0 {
        SurvivorOrigin(groups, lookup, k);
        var i :| 0 <= i < |groups| && NormsOf(AnswersOf(groups[i].1), lookup) == Ok(others[k]);
        NormsInUnitRange(AnswersOf(groups[i].1), lookup, e);
      }
      forall e ensures -1.0 <= selfNorm.Get(e) <= 1.0 {
        NormsInUnitRange(selfAnswers, lookup, e);
      }
      assert Sum(weights) > 0.0 by {
        SumAtLeastFirst(weights);
      }
      GapBounded(selfNorm, others, weights);
    }
  }

  /** A non-empty list of weights of at least 1 has a positive sum. */
  lemma {:induction false} SumAtLeastFirst(ws: seq<real>)
    requires |ws| > 0 && forall k :: 0 <= k < |ws| ==> ws[k] >= 1.0
    ensures Sum(ws) >= 1.0 && NonNegative(ws)
  {
    if |ws| > 1 {
      SumAtLeastFirst(ws[1..]);
    }
  }

  /** One stored Aggregate row: the self norms and the other-side columns. */
  datatype AggregateRow = AggregateRow(
    selfNorm: Norms, otherNorm: Option<Norms>, gap: Option<Norms>, variance: Option<Norms>,
    n: nat, gapScore: Option<real>)

  function RowOf(r: AggregateResult): AggregateRow {
    AggregateRow(r.selfNorm, r.otherNorm, r.gap, r.variance, r.n, r.gapScore)
  }

  /** The aggregates table, one row per session. */
  class AggregateTable {
    var rows: map<string, AggregateRow>

    constructor ()
      ensures rows == map[]
    {
      rows := map[];
    }

    /** recalculate_aggregate: score the self rows, group and score the other
      * rows, then find-or-create the session's row and overwrite every
      * column; a raised error writes nothing. */
    method Recalculate(sessionId: string, mode: string, lookup: map<int, Keying>,
                       selfAnswers: seq<Answer>, otherRows: seq<OtherResponse>)
      returns (r: Result<AggregateResult, ScoringError>)
      modifies this`rows
      ensures r == AggregateOf(sessionId, mode, lookup, selfAnswers, otherRows)
      ensures r.Ok? ==> rows == old(rows)[sessionId := RowOf(r.value)]
      ensures r.Err? ==> rows == old(rows)
    {
      if |selfAnswers| == 0 {
        return Err(SelfResponsesMissing);
      }
      var selfNorm := ComputeNorms(selfAnswers, lookup);
      if selfNorm.Err? {
        return Err(selfNorm.error);
      }
      var grouped := GroupInto(otherRows, RaterHash);
      var others, weights := CollectRaters(grouped, lookup);
      var result := AggregateResult(sessionId, mode, selfNorm.value, NormToRadar(selfNorm.value), None, None, None, None, 0, None);
      if |others| > 0 {
        var metrics := ComputeGapMetrics(selfNorm.value, others, weights);
        var m := metrics.value;
        result := result.(otherNorm := Some(m.aggOther), radarOther := Some(NormToRadar(m.aggOther)),
                          gap := Some(m.gap), variance := Some(m.variance), n := |others|, gapScore := Some(m.gapScore));
      }
      rows := rows[sessionId := RowOf(result)];
      r := Ok(result);
    }
  }

  // ================================================================ relation summaries

  /** ParticipantRelation, with its stored value. */
  datatype Relation = Friend | Coworker | Family | Partner | Other

  function RelationValue(r: Relation): string {
    match r
    case Friend => "friend"
    case Coworker => "coworker"
    case Family => "family"
    case Partner => "partner"
    case Other => "other"
  }

  /** The participant columns the relation summary reads. */
  datatype Participant = Participant(
    relation: Relation, perceivedType: Option<string>,
    axesPayload: Option<map<string, real>>, submittedAt: Option<int>)

  function RelationOf(p: Participant): Relation {
    p.relation
  }

  /** RELATION_MIN_RESPONDENTS. */
  const RelationMinRespondents: nat := 3

  /** RelationAggregateResult; fractions, consensus and pgi without their
    * rounding to six places. */
  datatype RelationSummary = RelationSummary(
    relation: Relation, respondentCount: nat,
    topType: Option<string>, topFraction: Option<real>,
    secondType: Option<string>, secondFraction: Option<real>,
    consensus: Option<real>, pgi: Option<real>, axesPayload: Option<Norms>)

  /** The members whose answers_submitted_at is set. */
  function Submitted(members: seq<Participant>): (r: seq<Participant>)
    ensures |r| <= |members|
    ensures forall p :: p in r <==> p in members && p.submittedAt.Some?
  {
    if |members| == 0 then []
    else
      var front := Submitted(members[..|members| - 1]);
      var last := members[|members| - 1];
      assert forall p :: p in members <==> p in members[..|members| - 1] || p == last;
      if last.submittedAt.Some? then front + [last] else front
  }

  /** The truthy axes payloads: present and not empty. */
  function AxesCandidates(submitted: seq<Participant>): seq<map<string, real>> {
    if |submitted| == 0 then []
    else
      var front := AxesCandidates(submitted[..|submitted| - 1]);
      var last := submitted[|submitted| - 1].axesPayload;
      if last.Some? && |last.value| > 0 then front + [last.value] else front
  }

  /** The truthy perceived types: present and not empty. */
  function PerceivedTypes(submitted: seq<Participant>): (types: seq<string>)
    ensures |types| <= |submitted|
  {
    if |submitted| == 0 then []
    else
      var front := PerceivedTypes(submitted[..|submitted| - 1]);
      var last := submitted[|submitted| - 1].perceivedType;
      if last.Some? && |last.value| > 0 then front + [last.value] else front
  }

  /** payload.get(dim, 0.0). */
  function AxisOf(payload: map<string, real>, d: Dim): real {
    if DimName(d) in payload then payload[DimName(d)] else 0.0
  }

  function AxisColumn(payloads: seq<map<string, real>>, d: Dim): seq<real> {
    seq(|payloads|, i requires 0 <= i < |payloads| => AxisOf(payloads[i], d))
  }

  /** _average_axes, without the rounding: the mean of each axis over the
    * payloads, a missing axis counting as 0.0. */
  function AverageAxes(payloads: seq<map<string, real>>): Norms
    requires |payloads| > 0
  {
    var n := |payloads| as real;
    PerDim(Sum(AxisColumn(payloads, EI)) / n, Sum(AxisColumn(payloads, SN)) / n,
           Sum(AxisColumn(payloads, TF)) / n, Sum(AxisColumn(payloads, JP)) / n)
  }

  function Ident(t: string): string {
    t
  }

  /** Counter(types): each distinct type with its number of occurrences, in
    * order of first appearance. */
  function TypeCounts(types: seq<string>): (counts: seq<(string, nat)>)
    ensures |counts| == |OM.GroupBy(types, Ident)|
    ensures forall i :: 0 <= i < |counts| ==>
      counts[i] == (OM.GroupBy(types, Ident)[i].0, |OM.GroupBy(types, Ident)[i].1|)
  {
    var groups := OM.GroupBy(types, Ident);
    seq(|groups|, i requires 0 <= i < |groups| => (groups[i].0, |groups[i].1|))
  }

  /** Counter.most_common order: by count, highest first, ties in order of
    * first appearance. */
  const ByCountDesc: ((string, nat), (string, nat)) -> bool :=
    (x: (string, nat), y: (string, nat)) => x.1 >= y.1

  function Fraction(count: nat, respondents: nat): real
    requires respondents > 0
  {
    count as real / respondents as real
  }

  /** The per-axis difference of two axis payloads. */
  function AxisGap(axes: Norms, selfNorm: Norms): Norms {
    PerDim(axes.ei - selfNorm.ei, axes.sn - selfNorm.sn, axes.tf - selfNorm.tf, axes.jp - selfNorm.jp)
  }

  /** The body of the per-relation loop of recalculate_relation_aggregates. */
  function SummarizeRelation(relation: Relation, members: seq<Participant>, selfNorm: Option<Norms>): (s: RelationSummary)
    ensures s.relation == relation
  {
    var submitted := Submitted(members);
    var candidates := AxesCandidates(submitted);
    if |submitted| < RelationMinRespondents || |candidates| == 0 then
      RelationSummary(relation, |submitted|, None, None, None, None, None, None, None)
    else
      OpenSummary(relation, submitted, candidates, selfNorm)
  }

  /** The summary of a relation past the privacy gate. */
  function OpenSummary(relation: Relation, submitted: seq<Participant>, candidates: seq<map<string, real>>,
                       selfNorm: Option<Norms>): (s: RelationSummary)
    requires |submitted| > 0 && |candidates| > 0
    ensures s.relation == relation && s.respondentCount == |submitted|
  {
    var count := |submitted|;
    var axes := AverageAxes(candidates);
    var ranked := Ranked(PerceivedTypes(submitted));
    var topType := if |ranked| > 0 then Some(ranked[0].0) else None;
    var topFraction := if |ranked| > 0 then Some(Fraction(ranked[0].1, count)) else None;
    var secondType := if |ranked| > 1 then Some(ranked[1].0) else None;
    var secondFraction := if |ranked| > 1 then Some(Fraction(ranked[1].1, count)) else None;
    var consensus :=
      if |ranked| == 0 then None
      else if |ranked| == 1 then topFraction
      else Some(topFraction.value - secondFraction.value);
    var pgi := if selfNorm.Some? then Some(GapScore(AxisGap(axes, selfNorm.value))) else None;
    RelationSummary(relation, count, topType, topFraction, secondType, secondFraction, consensus, pgi, Some(axes))
  }

  /** Occurrences of t in types. */
  function Occurrences(types: seq<string>, t: string): nat {
    |OM.Having(types, Ident, t)|
  }

  /** The privacy gate: respondent_count counts the submitted members, and
    * every summary field stays None unless at least three have submitted and
    * one of them carries an axes payload. Past the gate the axes are
    * reported; the majority fields appear iff some submitted member
    * perceived a type, and pgi iff a self norm exists. */
  lemma PrivacyGate(relation: Relation, members: seq<Participant>, selfNorm: Option<Norms>)
    ensures var s := SummarizeRelation(relation, members, selfNorm);
      s.relation == relation && s.respondentCount == |Submitted(members)|
    ensures var s := SummarizeRelation(relation, members, selfNorm);
      var open := |Submitted(members)| >= RelationMinRespondents && |AxesCandidates(Submitted(members))| > 0;
      (!open ==> s == RelationSummary(relation, s.respondentCount, None, None, None, None, None, None, None)) &&
      (open ==> s.axesPayload == Some(AverageAxes(AxesCandidates(Submitted(members)))) &&
                (s.topType.Some? <==> |PerceivedTypes(Submitted(members))| > 0) &&
                s.topFraction.Some? == s.topType.Some? && s.consensus.Some? == s.topType.Some? &&
                (s.pgi.Some? <==> selfNorm.Some?))
  {
    var submitted := Submitted(members);
    var counts := TypeCounts(PerceivedTypes(submitted));
    if |PerceivedTypes(submitted)| > 0 {
      var t := PerceivedTypes(submitted)[0];
      OM.GroupByMembers(PerceivedTypes(submitted), Ident, t);
      var groups := OM.GroupBy(PerceivedTypes(submitted), Ident);
      assert |groups| > 0;
    }
  }

  /** A summary below the respondent minimum carries nothing but its relation
    * and its count. */
  predicate Gated(s: RelationSummary) {
    s.respondentCount < RelationMinRespondents ==>
      s == RelationSummary(s.relation, s.respondentCount, None, None, None, None, None, None, None)
  }

  /** The privacy gate holds for every summary recalculate_relation_aggregates
    * lists. */
  lemma AllGated(participants: seq<Participant>, selfNorm: Option<Norms>)
    ensures forall s :: s in RelationSummariesOf(participants, selfNorm) ==> Gated(s)
  {
    var groups := OM.GroupBy(participants, RelationOf);
    var unsorted := GroupSummaries(groups, selfNorm);
    forall s | s in unsorted
      ensures Gated(s)
    {
      var i :| 0 <= i < |unsorted| && unsorted[i] == s;
      PrivacyGate(groups[i].0, groups[i].1, selfNorm);
    }
    Sorting.SortPermutes(unsorted, ByRelationValue);
    forall s | s in RelationSummariesOf(participants, selfNorm)
      ensures Gated(s)
    {
      assert s in multiset(unsorted);
    }
  }

  /** most_common(2) on the Counter of the perceived types. */
  function Ranked(types: seq<string>): seq<(string, nat)> {
    Sorting.Sort(TypeCounts(types), ByCountDesc)
  }

  /** The first entry of most_common is a most frequent type, and among
    * equally frequent types the one that appeared first: wherever another
    * type with the same count occurs, the top type has occurred before. */
  lemma TopIsMostCommon(types: seq<string>)
    requires |Ranked(types)| > 0
    ensures var top := Ranked(types)[0];
      top.0 in types && top.1 == Occurrences(types, top.0) && 1 <= top.1 <= |types| &&
      forall t :: t in types ==> Occurrences(types, t) <= top.1
    ensures var top := Ranked(types)[0];
      forall q :: 0 <= q < |types| && types[q] != top.0 && Occurrences(types, types[q]) == top.1 ==>
        exists p :: 0 <= p < q && types[p] == top.0
  {
    var counts := TypeCounts(types);
    var ranked := Ranked(types);
    Sorting.SortCorrect(counts, ByCountDesc);
    assert ranked[0] in multiset(counts);
    var i :| 0 <= i < |counts| && counts[i] == ranked[0];
    CountIsOccurrences(types, i);
    OccurrencesBounded(types, ranked[0].0);
    forall t | t in types ensures Occurrences(types, t) <= ranked[0].1 {
      var j := TypeIndex(types, t);
      CountIsOccurrences(types, j);
      assert counts[j] in multiset(ranked);
      var m :| 0 <= m < |ranked| && ranked[m] == counts[j];
      if m > 0 {
        assert ByCountDesc(ranked[0], ranked[m]);
      }
    }
    var m := TopPosition(types);
    forall q | 0 <= q < |types| && types[q] != ranked[0].0 && Occurrences(types, types[q]) == ranked[0].1
      ensures exists p :: 0 <= p < q && types[p] == ranked[0].0
    {
      assert types[q] in types;
      var j := TypeIndex(types, types[q]);
      CountIsOccurrences(types, j);
      OM.GroupByOrder(types, Ident, m, j, q);
    }
  }

  /** The Counter entry most_common puts first: no entry before it is as
    * frequent. */
  lemma TopPosition(types: seq<string>) returns (m: nat)
    requires |Ranked(types)| > 0
    ensures m < |TypeCounts(types)| && Ranked(types)[0] == TypeCounts(types)[m]
    ensures forall k :: 0 <= k < |TypeCounts(types)| && TypeCounts(types)[k].1 >= TypeCounts(types)[m].1 ==> m <= k
  {
    var counts := TypeCounts(types);
    Sorting.SortHeadFirst(counts, ByCountDesc);
    m :| 0 <= m < |counts| && Ranked(types)[0] == counts[m] &&
      forall k :: 0 <= k < |counts| && ByCountDesc(counts[k], counts[m]) ==> m <= k;
  }

  /** The second entry of most_common is another type, no more frequent. */
  lemma RunnerUp(types: seq<string>)
    requires |Ranked(types)| > 1
    ensures var ranked := Ranked(types);
      ranked[1].0 in types && ranked[1].0 != ranked[0].0 &&
      ranked[1].1 == Occurrences(types, ranked[1].0) && ranked[1].1 <= ranked[0].1
  {
    var counts := TypeCounts(types);
    var ranked := Ranked(types);
    Sorting.SortCorrect(counts, ByCountDesc);
    assert ByCountDesc(ranked[0], ranked[1]);
    assert ranked[0] in multiset(counts) && ranked[1] in multiset(counts);
    var i :| 0 <= i < |counts| && counts[i] == ranked[0];
    var i2 :| 0 <= i2 < |counts| && counts[i2] == ranked[1];
    CountIsOccurrences(types, i2);
    if i2 == i {
      RepeatedHead(ranked);
      CountsOnce(types, i);
    }
    var groups := OM.GroupBy(types, Ident);
    assert groups[i2].0 != groups[i].0;
  }

  /** A sequence whose first two elements are equal holds the first twice. */
  lemma RepeatedHead<T>(s: seq<T>)
    requires |s| > 1 && s[0] == s[1]
    ensures multiset(s)[s[0]] >= 2
  {
    assert s == [s[0], s[1]] + s[2..];
  }

  lemma FractionMonotone(a: nat, b: nat, n: nat)
    requires a <= b && n > 0
    ensures Fraction(a, n) <= Fraction(b, n)
  {
  }

  lemma FractionUnit(a: nat, n: nat)
    requires 1 <= a <= n
    ensures 0.0 < Fraction(a, n) <= 1.0
  {
  }

  /** Past the gate the majority fields describe the most common perceived
    * type: its share of the respondents, at least every other type's share
    * and at most 1; the runner-up's share is no larger; and consensus is
    * the difference of the two, or the top share alone without a runner-up. */
  lemma MajorityFields(relation: Relation, members: seq<Participant>, selfNorm: Option<Norms>)
    ensures var s := SummarizeRelation(relation, members, selfNorm);
      var submitted := Submitted(members);
      var types := PerceivedTypes(submitted);
      s.topType.Some? ==>
        s.topType.value in types &&
        s.topFraction.value == Fraction(Occurrences(types, s.topType.value), |submitted|) &&
        (forall t :: t in types ==> Occurrences(types, t) <= Occurrences(types, s.topType.value)) &&
        0.0 < s.topFraction.value <= 1.0 &&
        (s.secondType.Some? <==> s.secondFraction.Some?) &&
        (s.secondType.Some? ==>
          s.secondType.value in types && s.secondType.value != s.topType.value &&
          s.secondFraction.value == Fraction(Occurrences(types, s.secondType.value), |submitted|) &&
          s.secondFraction.value <= s.topFraction.value &&
          s.consensus == Some(s.topFraction.value - s.secondFraction.value)) &&
        (s.secondType.None? ==> s.consensus == s.topFraction)
  {
    var s := SummarizeRelation(relation, members, selfNorm);
    var submitted := Submitted(members);
    var types := PerceivedTypes(submitted);
    if s.topType.Some? {
      var ranked := Ranked(types);
      TopIsMostCommon(types);
      FractionUnit(ranked[0].1, |submitted|);
      if |ranked| > 1 {
        RunnerUp(types);
        FractionMonotone(ranked[1].1, ranked[0].1, |submitted|);
      }
    }
  }

  /** The i-th Counter entry counts the occurrences of its type, at least one. */
  lemma CountIsOccurrences(types: seq<string>, i: nat)
    requires i < |TypeCounts(types)|
    ensures var c := TypeCounts(types)[i];
      c.0 in types && c.1 == Occurrences(types, c.0) && c.1 >= 1
  {
    var groups := OM.GroupBy(types, Ident);
    var t := groups[i].0;
    OM.GroupByMembers(types, Ident, t);
    OM.GetAt(groups, i, []);
    assert OM.HasKey(groups, t);
  }

  /** Every perceived type has a Counter entry. */
  lemma TypeIndex(types: seq<string>, t: string) returns (j: nat)
    requires t in types
    ensures j < |TypeCounts(types)| && TypeCounts(types)[j].0 == t
  {
    OM.GroupByMembers(types, Ident, t);
    var k :| 0 <= k < |types| && types[k] == t;
    j := OM.KeyIndex(OM.GroupBy(types, Ident), t);
  }

  /** Counter entries are distinct. */
  lemma CountsOnce(types: seq<string>, i: nat)
    requires i < |TypeCounts(types)|
    ensures multiset(TypeCounts(types))[TypeCounts(types)[i]] == 1
  {
    var counts := TypeCounts(types);
    var c := counts[i];
    assert counts == counts[..i] + [c] + counts[i + 1..];
    assert c !in counts[..i] && c !in counts[i + 1..] by {
      assert forall j :: 0 <= j < |counts| && j != i ==> counts[j].0 != c.0;
    }
    assert multiset(counts[..i])[c] == 0 && multiset(counts[i + 1..])[c] == 0;
  }

  /** No type occurs more often than there are submitted members. */
  lemma {:induction false} OccurrencesBounded(types: seq<string>, t: string)
    ensures Occurrences(types, t) <= |types|
  {
  }

  /** The stored value orders the relation summaries. */
  const ByRelationValue: (RelationSummary, RelationSummary) -> bool :=
    (a: RelationSummary, b: RelationSummary) => Sorting.StrLe(RelationValue(a.relation), RelationValue(b.relation))

  lemma ByRelationValueTotal()
    ensures Sorting.TotalPreorder(ByRelationValue)
  {
    forall a, b ensures ByRelationValue(a, b) || ByRelationValue(b, a) {
      Sorting.StrLeTotal(RelationValue(a.relation), RelationValue(b.relation));
    }
    forall a, b, c | ByRelationValue(a, b) && ByRelationValue(b, c) ensures ByRelationValue(a, c) {
      Sorting.StrLeTransitive(RelationValue(a.relation), RelationValue(b.relation), RelationValue(c.relation));
    }
  }

  /** The summaries of every relation group, in group order. */
  function GroupSummaries(groups: seq<(Relation, seq<Participant>)>, selfNorm: Option<Norms>): (s: seq<RelationSummary>)
    ensures |s| == |groups|
    ensures forall i :: 0 <= i < |groups| ==> s[i] == SummarizeRelation(groups[i].0, groups[i].1, selfNorm)
  {
    seq(|groups|, i requires 0 <= i < |groups| => SummarizeRelation(groups[i].0, groups[i].1, selfNorm))
  }

  /** What recalculate_relation_aggregates lists: one summary per relation
    * present among the participants, sorted by relation value. */
  function RelationSummariesOf(participants: seq<Participant>, selfNorm: Option<Norms>): seq<RelationSummary> {
    Sorting.Sort(GroupSummaries(OM.GroupBy(participants, RelationOf), selfNorm), ByRelationValue)
  }

  /** _load_self_norm: the stored self columns when all four are set,
    * otherwise the norms of the self rows, or None when there are none or
    * they do not score. */
  function LoadSelfNorm(stored: Option<Norms>, selfAnswers: seq<Answer>, lookup: map<int, Keying>): Option<Norms> {
    if stored.Some? then stored
    else if |selfAnswers| == 0 then None
    else
      match NormsOf(selfAnswers, lookup)
      case Ok(norms) => Some(norms)
      case Err(_) => None
  }

  /** RelationAggregateSummary.total_respondents. */
  function TotalRespondents(relations: seq<RelationSummary>): nat {
    if |relations| == 0 then 0 else relations[0].respondentCount + TotalRespondents(relations[1..])
  }

  predicate DistinctRelations(summaries: seq<RelationSummary>) {
    Sorting.DistinctBy(summaries, RelationOfSummary)
  }

  function RelationOfSummary(s: RelationSummary): Relation {
    s.relation
  }

  /** Sorting summaries of distinct relations by relation value keeps them
    * distinct and puts them in ascending order. */
  lemma SortByRelation(unsorted: seq<RelationSummary>)
    requires DistinctRelations(unsorted)
    ensures var s := Sorting.Sort(unsorted, ByRelationValue);
      DistinctRelations(s) &&
      (forall i, j :: 0 <= i < j < |s| ==> Sorting.StrLe(RelationValue(s[i].relation), RelationValue(s[j].relation))) &&
      RelationsOf(s) == RelationsOf(unsorted)
  {
    var s := Sorting.Sort(unsorted, ByRelationValue);
    ByRelationValueTotal();
    Sorting.SortCorrect(unsorted, ByRelationValue);
    Sorting.PermutationDistinctKeys(unsorted, s, RelationOfSummary);
    Sorting.PermutationSameKeys(unsorted, s, RelationOfSummary);
  }

  /** The group summaries carry the group relations, which are distinct and
    * exactly the participants' relations. */
  lemma GroupRelations(participants: seq<Participant>, selfNorm: Option<Norms>)
    ensures var unsorted := GroupSummaries(OM.GroupBy(participants, RelationOf), selfNorm);
      DistinctRelations(unsorted) &&
      RelationsOf(unsorted) == Sorting.KeySet(participants, RelationOf)
  {
    var groups := OM.GroupBy(participants, RelationOf);
    var unsorted := GroupSummaries(groups, selfNorm);
    OM.GroupByKeys(participants, RelationOf);
    assert Sorting.DistinctBy(groups, OM.Fst);
    Sorting.SameKeysAlong(unsorted, RelationOfSummary, groups, OM.Fst);
  }

  /** recalculate_relation_aggregates lists each relation of the participants
    * exactly once, no other relation, in ascending order of relation value. */
  lemma SummariesPerRelation(participants: seq<Participant>, selfNorm: Option<Norms>)
    ensures var s := RelationSummariesOf(participants, selfNorm);
      DistinctRelations(s) &&
      (forall i, j :: 0 <= i < j < |s| ==> Sorting.StrLe(RelationValue(s[i].relation), RelationValue(s[j].relation))) &&
      RelationsOf(s) == Sorting.KeySet(participants, RelationOf)
  {
    GroupRelations(participants, selfNorm);
    SortByRelation(GroupSummaries(OM.GroupBy(participants, RelationOf), selfNorm));
  }

  /** The rows after the per-relation loop: each summary written under
    * (session, relation), later ones over earlier ones. */
  function StoreSummaries(records: map<(string, Relation), RelationSummary>, sessionId: string,
                          summaries: seq<RelationSummary>): map<(string, Relation), RelationSummary>
  {
    OM.StoreKeyed(records, sessionId, summaries, RelationOfSummary)
  }

  /** Find-or-create then overwrite: after the loop the session has one row
    * per listed relation, holding that relation's summary, and every other
    * row is as before. */
  lemma StoredSummaries(records: map<(string, Relation), RelationSummary>, sessionId: string,
                        summaries: seq<RelationSummary>)
    requires DistinctRelations(summaries)
    ensures var stored := StoreSummaries(records, sessionId, summaries);
      (forall key :: key in stored <==> key in records || (key.0 == sessionId && key.1 in RelationsOf(summaries))) &&
      (forall key :: key in records && !(key.0 == sessionId && key.1 in RelationsOf(summaries)) ==> stored[key] == records[key]) &&
      (forall i :: 0 <= i < |summaries| ==> stored[(sessionId, summaries[i].relation)] == summaries[i])
  {
    OM.StoredKeyedDomain(records, sessionId, summaries, RelationOfSummary);
    OM.StoredKeyedOthers(records, sessionId, summaries, RelationOfSummary);
    OM.StoredKeyedValues(records, sessionId, summaries, RelationOfSummary);
  }

  function RelationsOf(summaries: seq<RelationSummary>): set<Relation> {
    Sorting.KeySet(summaries, RelationOfSummary)
  }

  lemma GroupSummariesSnoc(groups: seq<(Relation, seq<Participant>)>, i: nat, selfNorm: Option<Norms>)
    requires i < |groups|
    ensures GroupSummaries(groups[..i + 1], selfNorm)
         == GroupSummaries(groups[..i], selfNorm) + [SummarizeRelation(groups[i].0, groups[i].1, selfNorm)]
  {
    assert groups[..i + 1] == groups[..i] + [groups[i]];
  }

  /** The relation_aggregates table: at most one row per (session, relation). */
  class RelationAggregateTable {
    var records: map<(string, Relation), RelationSummary>

    constructor ()
      ensures records == map[]
    {
      records := map[];
    }

    /** recalculate_relation_aggregates: an unknown session yields an empty
      * summary and writes nothing; otherwise each relation's row is found or
      * created and overwritten, and the summaries are returned sorted by
      * relation value. */
    method Recalculate(sessionId: string, sessionExists: bool, storedSelf: Option<Norms>,
                       selfAnswers: seq<Answer>, lookup: map<int, Keying>, participants: seq<Participant>)
      returns (relations: seq<RelationSummary>)
      modifies this`records
      ensures !sessionExists ==> relations == [] && records == old(records)
      ensures sessionExists ==>
        relations == RelationSummariesOf(participants, LoadSelfNorm(storedSelf, selfAnswers, lookup))
      ensures sessionExists ==>
        records == StoreSummaries(old(records), sessionId,
                                  GroupSummaries(OM.GroupBy(participants, RelationOf), LoadSelfNorm(storedSelf, selfAnswers, lookup)))
    {
      if !sessionExists {
        return [];
      }
      var selfNorm := storedSelf;
      if storedSelf.None? && |selfAnswers| > 0 {
        var norms := ComputeNorms(selfAnswers, lookup);
        selfNorm := if norms.Ok? then Some(norms.value) else None;
      }
      var groups := GroupInto(participants, RelationOf);
      var results: seq<RelationSummary> := [];
      for i := 0 to |groups|
        invariant results == GroupSummaries(groups[..i], selfNorm)
        invariant records == StoreSummaries(old(records), sessionId, results)
      {
        var summary := SummarizeRelation(groups[i].0, groups[i].1, selfNorm);
        GroupSummariesSnoc(groups, i, selfNorm);
        OM.StoreKeyedSnoc(old(records), sessionId, results, summary, RelationOfSummary);
        records := records[(sessionId, summary.relation) := summary];
        results := results + [summary];
      }
      assert groups[..|groups|] == groups;
      relations := Sorting.Sort(results, ByRelationValue);
    }
  }
}
