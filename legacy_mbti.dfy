// The question list and percentage rule shared by the legacy integer MBTI
// scorers: the friend-evaluation router (app/routers/mbti.py), which the
// stand-alone test script (test_mbti.py) copies, and MBTIService.
module LegacyMbti {
  import opened Schemas

  /** One entry of MBTI_QUESTIONS: its id, the axis it scores ("type") and
    * the direction it pushes that axis ("sign"). */
  datatype LegacyQuestion = LegacyQuestion(id: int, axis: Dim, sign: int)

  /** MBTI_QUESTIONS: six questions per axis, alternating signs except that
    * the J-P block ends -1, +1. */
  const MbtiQuestions: seq<LegacyQuestion> := [
    LegacyQuestion(1, EI, 1), LegacyQuestion(2, EI, -1), LegacyQuestion(3, EI, 1),
    LegacyQuestion(4, EI, -1), LegacyQuestion(5, EI, 1), LegacyQuestion(6, EI, -1),
    LegacyQuestion(7, SN, 1), LegacyQuestion(8, SN, -1), LegacyQuestion(9, SN, 1),
    LegacyQuestion(10, SN, -1), LegacyQuestion(11, SN, 1), LegacyQuestion(12, SN, -1),
    LegacyQuestion(13, TF, 1), LegacyQuestion(14, TF, -1), LegacyQuestion(15, TF, 1),
    LegacyQuestion(16, TF, -1), LegacyQuestion(17, TF, 1), LegacyQuestion(18, TF, -1),
    LegacyQuestion(19, JP, 1), LegacyQuestion(20, JP, -1), LegacyQuestion(21, JP, 1),
    LegacyQuestion(22, JP, -1), LegacyQuestion(23, JP, -1), LegacyQuestion(24, JP, 1)
  ]

  /** max_score: six questions of at most 2 points each. */
  const MaxScore: nat := 12

  function Abs(x: int): nat {
    if x < 0 then -x else x
  }

  /** What one answer adds to its axis: sign * (value - 3). */
  function Contribution(q: LegacyQuestion, value: int): int {
    q.sign * (value - 3)
  }

  /** int(min(100, (|raw| + max_score) / (2 * max_score) * 100)): the
    * favoured pole's percentage. */
  function FavouredPercent(raw: int): (p: int)
    ensures 50 <= p <= 100
    ensures raw == 0 ==> p == 50
    ensures Abs(raw) >= MaxScore ==> p == 100
    ensures Abs(raw) < MaxScore ==> p < 100
  {
    var x := (Abs(raw) + MaxScore) as real / (2 * MaxScore) as real * 100.0;
    (if x < 100.0 then x else 100.0).Floor
  }

  /** The two pole percentages of one axis. */
  datatype PoleScores = PoleScores(first: int, second: int)

  /** The router's rule: the pole the raw score leans to (the second one on
    * a tie) gets the favoured percentage, the other one the rest of 100. */
  function PoleScoresOf(raw: int): (s: PoleScores)
    ensures s.first + s.second == 100
    ensures raw > 0 ==> s.first == FavouredPercent(raw) && s.first >= s.second
    ensures raw <= 0 ==> s.second == FavouredPercent(raw) && s.second >= s.first
    ensures raw == 0 ==> s == PoleScores(50, 50)
  {
    if raw > 0 then
      var first := FavouredPercent(raw);
      PoleScores(first, 100 - first)
    else
      var second := FavouredPercent(raw);
      PoleScores(100 - second, second)
  }

  /** The letter of one axis: the first pole only for a positive raw score. */
  function Letter(d: Dim, raw: int): char {
    if raw > 0 then PositiveLetter(d) else NegativeLetter(d)
  }

  /** The four letters in E-I, S-N, T-F, J-P order. */
  function TypeOf(raw: PerDim<int>): (t: string)
    ensures |t| == 4 && forall d :: t[DimIndex(d)] == Letter(d, raw.Get(d))
    ensures t in ValidMbtiTypes
  {
    var t := [Letter(EI, raw.ei), Letter(SN, raw.sn), Letter(TF, raw.tf), Letter(JP, raw.jp)];
    ValidTypesAreCombinations(t);
    t
  }

  /** The mbti_type, scores and raw_scores a legacy scorer returns. */
  datatype LegacyResult = LegacyResult(mbtiType: string, scores: PerDim<PoleScores>, raw: PerDim<int>)

  function ResultOf(raw: PerDim<int>): LegacyResult {
    LegacyResult(TypeOf(raw),
                 PerDim(PoleScoresOf(raw.ei), PoleScoresOf(raw.sn), PoleScoresOf(raw.tf), PoleScoresOf(raw.jp)),
                 raw)
  }

  /** Every axis of a result: percentages summing to 100, the letter of the
    * raw score's sign, and the larger percentage on that letter's side. */
  lemma ResultAxes(raw: PerDim<int>, d: Dim)
    ensures var r := ResultOf(raw); var s := r.scores.Get(d);
      s.first + s.second == 100 &&
      (r.mbtiType[DimIndex(d)] == PositiveLetter(d) <==> raw.Get(d) > 0) &&
      (raw.Get(d) > 0 ==> s.first >= 50) && (raw.Get(d) <= 0 ==> s.second >= 50)
  {
    var r := ResultOf(raw);
    assert r.scores.Get(d) == PoleScoresOf(raw.Get(d));
    assert PositiveLetter(d) != NegativeLetter(d);
  }
}
