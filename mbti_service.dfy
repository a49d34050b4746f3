// MBTIService._calc_scores (app/core/services/mbti_service.py): the pair
// service's scorer. Answers are ints keyed by question id; an answer that is
// missing or 0 is skipped, and each pole gets its own unclamped percentage.
module MbtiService {
  import opened Wrappers
  import opened Schemas
  import opened LegacyMbti

  /** `if val:` on answers.get(id): present and non-zero. */
  predicate Truthy(answers: map<int, int>, id: int) {
    id in answers && answers[id] != 0
  }

  /** raw after the questions qs have been visited in order. */
  function RawOf(qs: seq<LegacyQuestion>, answers: map<int, int>): PerDim<int> {
    if |qs| == 0 then Uniform(0) else
    var front := RawOf(qs[..|qs| - 1], answers);
    var q := qs[|qs| - 1];
    if Truthy(answers, q.id) then front.Set(q.axis, front.Get(q.axis) + Contribution(q, answers[q.id]))
    else front
  }

  /** pct(v) = int((|v| + max_score) / (2 * max_score) * 100), with no upper
    * clamp. */
  function Pct(v: int): (p: int)
    ensures v == 0 ==> p == 50
    ensures v != 0 ==> p > 50
    ensures p <= 100 <==> Abs(v) <= MaxScore
  {
    ((Abs(v) + MaxScore) as real / (2 * MaxScore) as real * 100.0).Floor
  }

  function Max0(v: int): int { if v > 0 then v else 0 }
  function Min0(v: int): int { if v < 0 then v else 0 }

  /** The two pole scores of one axis: pct(max(raw, 0)) and pct(min(raw, 0)). */
  function ServicePoles(raw: int): PoleScores {
    PoleScores(Pct(Max0(raw)), Pct(Min0(raw)))
  }

  function ServiceScoresOf(raw: PerDim<int>): PerDim<PoleScores> {
    PerDim(ServicePoles(raw.ei), ServicePoles(raw.sn), ServicePoles(raw.tf), ServicePoles(raw.jp))
  }

  /** _calc_scores: returns the type letters, the pole scores and raw. */
  method CalcScores(answers: map<int, int>, questions: seq<LegacyQuestion>)
    returns (mbti: string, scores: PerDim<PoleScores>, raw: PerDim<int>)
    ensures raw == RawOf(questions, answers)
    ensures scores == ServiceScoresOf(raw)
    ensures mbti == TypeOf(raw)
  {
    raw := Uniform(0);
    var i := 0;
    while i < |questions|
      invariant 0 <= i <= |questions|
      invariant raw == RawOf(questions[..i], answers)
    {
      var q := questions[i];
      assert questions[..i + 1][..i] == questions[..i];
      if q.id in answers && answers[q.id] != 0 {
        var deviation := answers[q.id] - 3;
        raw := raw.Set(q.axis, raw.Get(q.axis) + q.sign * deviation);
      }
      i := i + 1;
    }
    assert questions[..i] == questions;
    scores := ServiceScoresOf(raw);
    mbti := TypeOf(raw);
  }

  /** Every pole scores at least 50; the pole the raw score does not favour
    * (both on a tie) scores exactly 50; the first pole is ahead, and its
    * letter chosen, exactly when raw is positive. */
  lemma PolesOfAxis(raw: PerDim<int>, d: Dim)
    ensures var s := ServiceScoresOf(raw).Get(d);
      s.first >= 50 && s.second >= 50 &&
      (raw.Get(d) <= 0 ==> s.first == 50) && (raw.Get(d) >= 0 ==> s.second == 50) &&
      (s.first > s.second <==> raw.Get(d) > 0) &&
      (TypeOf(raw)[DimIndex(d)] == PositiveLetter(d) <==> raw.Get(d) > 0)
  {
    assert ServiceScoresOf(raw).Get(d) == ServicePoles(raw.Get(d));
    assert PositiveLetter(d) != NegativeLetter(d);
  }

  /** A missing answer and an answer of 0 are both skipped. */
  lemma {:induction false} ZeroIsMissing(qs: seq<LegacyQuestion>, answers: map<int, int>, id: int)
    ensures RawOf(qs, answers[id := 0]) == RawOf(qs, answers - {id})
  {
    if |qs| > 0 {
      ZeroIsMissing(qs[..|qs| - 1], answers, id);
      var q := qs[|qs| - 1];
      assert Truthy(answers[id := 0], q.id) == Truthy(answers - {id}, q.id);
    }
  }

  /** The six E-I questions of the service's test. */
  const EiQuestions: seq<LegacyQuestion> := MbtiQuestions[..6]

  /** Answers leaning to E on every E-I question (5 on E items, 1 on I
    * items) give an E type with E ahead of I. */
  lemma EBiased()
    ensures var raw := RawOf(EiQuestions, map[1 := 5, 2 := 1, 3 := 5, 4 := 1, 5 := 5, 6 := 1]);
      raw.ei == 12 && TypeOf(raw)[0] == 'E' &&
      ServiceScoresOf(raw).ei.first > ServiceScoresOf(raw).ei.second
  {
    var answers := map[1 := 5, 2 := 1, 3 := 5, 4 := 1, 5 := 5, 6 := 1];
    var qs := EiQuestions;
    assert qs == [LegacyQuestion(1, EI, 1), LegacyQuestion(2, EI, -1), LegacyQuestion(3, EI, 1),
                  LegacyQuestion(4, EI, -1), LegacyQuestion(5, EI, 1), LegacyQuestion(6, EI, -1)];
    assert RawOf(qs[..1], answers).ei == 2;
    assert RawOf(qs[..2], answers).ei == 4;
    assert qs[..3][..2] == qs[..2];
    assert RawOf(qs[..3], answers).ei == 6;
    assert qs[..4][..3] == qs[..3];
    assert RawOf(qs[..4], answers).ei == 8;
    assert qs[..5][..4] == qs[..4];
    assert RawOf(qs[..5], answers).ei == 10;
    assert qs[..6] == qs && qs[..6][..5] == qs[..5];
    PolesOfAxis(RawOf(qs, answers), EI);
  }
}
