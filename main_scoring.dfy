// The self-test pages of the application entry point (app/main.py): the
// question list shown for a mode and perspective, the scoring of the
// submitted answers into a type with per-pole percentages, and the summary
// shown for the type.
module MainScoring {
  import opened Wrappers
  import opened Schemas
  import Scoring
  import QL = QuestionnaireLoader
  import Questions

  // ---------------------------------------------------------------- questions

  /** One question as the page shows it. */
  datatype QuestionView = QuestionView(id: int, question: string, dim: string, sign: int,
                                       context: string, theme: string, scenario: string)

  /** raw.get(prompt_key): prompt_other for the "other" perspective,
    * prompt_self for any other value. */
  function PromptFor(p: Questions.QuestionPayload, perspective: string): string {
    if perspective == "other" then p.promptOther else p.promptSelf
  }

  function ViewOf(p: Questions.QuestionPayload, prompt: string): QuestionView {
    QuestionView(p.id, prompt, p.dim, p.sign, p.context, p.theme, p.scenario)
  }

  /** The views of the payloads whose prompt is non-empty, in order. */
  function ViewsOf(payloads: seq<Questions.QuestionPayload>, perspective: string): seq<QuestionView> {
    if |payloads| == 0 then [] else
    var front := ViewsOf(payloads[..|payloads| - 1], perspective);
    var p := payloads[|payloads| - 1];
    if PromptFor(p, perspective) == "" then front else front + [ViewOf(p, PromptFor(p, perspective))]
  }

  /** The loop of _build_questions over the payloads of a mode. */
  method CollectViews(payloads: seq<Questions.QuestionPayload>, perspective: string)
    returns (views: seq<QuestionView>)
    ensures views == ViewsOf(payloads, perspective)
  {
    var useOther := perspective == "other";
    views := [];
    var i := 0;
    while i < |payloads|
      invariant 0 <= i <= |payloads|
      invariant views == ViewsOf(payloads[..i], perspective)
    {
      var raw := payloads[i];
      assert payloads[..i + 1][..i] == payloads[..i] && payloads[..i + 1][i] == raw;
      var prompt := if useOther then raw.promptOther else raw.promptSelf;
      if prompt != "" {
        views := views + [QuestionView(raw.id, prompt, raw.dim, raw.sign, raw.context, raw.theme, raw.scenario)];
      }
      i := i + 1;
    }
    assert payloads[..i] == payloads;
  }

  /** _build_questions: the mode's questions, each shown with the prompt of
    * the perspective, those without one left out. */
  method BuildQuestions(seeds: seq<QL.QuestionSeed>, mode: string, perspective: string)
    returns (r: Result<seq<QuestionView>, Questions.QuestionsError>)
    ensures Questions.QuestionsForMode(seeds, mode).Err? ==> r == Err(Questions.QuestionsForMode(seeds, mode).error)
    ensures Questions.QuestionsForMode(seeds, mode).Ok? ==>
      r == Ok(ViewsOf(Questions.QuestionsForMode(seeds, mode).value, perspective))
  {
    var payloads := Questions.QuestionsForMode(seeds, mode);
    if payloads.Err? {
      return Err(payloads.error);
    }
    var views := CollectViews(payloads.value, perspective);
    r := Ok(views);
  }

  /** Every view shows the non-empty prompt, of the chosen perspective, of
    * one of the payloads; every payload with such a prompt has its view; and
    * when no prompt is missing no question is dropped. */
  lemma ViewsFollowPayloads(payloads: seq<Questions.QuestionPayload>, perspective: string)
    ensures |ViewsOf(payloads, perspective)| <= |payloads|
    ensures forall j :: 0 <= j < |ViewsOf(payloads, perspective)| ==>
      var v := ViewsOf(payloads, perspective)[j];
      v.question != "" && exists k :: 0 <= k < |payloads| && v == ViewOf(payloads[k], PromptFor(payloads[k], perspective))
    ensures forall k :: 0 <= k < |payloads| && PromptFor(payloads[k], perspective) != "" ==>
      ViewOf(payloads[k], PromptFor(payloads[k], perspective)) in ViewsOf(payloads, perspective)
    ensures (forall k :: 0 <= k < |payloads| ==> PromptFor(payloads[k], perspective) != "") ==>
      |ViewsOf(payloads, perspective)| == |payloads|
  {
    ViewsSound(payloads, perspective);
    ViewsComplete(payloads, perspective);
    ViewsKeepAll(payloads, perspective);
  }

  /** Every view is the view of some payload, with a non-empty prompt. */
  lemma {:induction false} ViewsSound(payloads: seq<Questions.QuestionPayload>, perspective: string)
    ensures |ViewsOf(payloads, perspective)| <= |payloads|
    ensures forall j :: 0 <= j < |ViewsOf(payloads, perspective)| ==>
      var v := ViewsOf(payloads, perspective)[j];
      v.question != "" && exists k :: 0 <= k < |payloads| && v == ViewOf(payloads[k], PromptFor(payloads[k], perspective))
  {
    if |payloads| > 0 {
      var front := payloads[..|payloads| - 1];
      ViewsSound(front, perspective);
      var views, fv := ViewsOf(payloads, perspective), ViewsOf(front, perspective);
      forall j | 0 <= j < |views|
        ensures views[j].question != "" &&
          exists k :: 0 <= k < |payloads| && views[j] == ViewOf(payloads[k], PromptFor(payloads[k], perspective))
      {
        if j < |fv| {
          var k :| 0 <= k < |front| && fv[j] == ViewOf(front[k], PromptFor(front[k], perspective));
          assert front[k] == payloads[k];
        } else {
          var k := |payloads| - 1;
          assert views[j] == ViewOf(payloads[k], PromptFor(payloads[k], perspective));
        }
      }
    }
  }

  /** Every payload with a non-empty prompt has its view. */
  lemma {:induction false} ViewsComplete(payloads: seq<Questions.QuestionPayload>, perspective: string)
    ensures forall k :: 0 <= k < |payloads| && PromptFor(payloads[k], perspective) != "" ==>
      ViewOf(payloads[k], PromptFor(payloads[k], perspective)) in ViewsOf(payloads, perspective)
  {
    if |payloads| > 0 {
      var front := payloads[..|payloads| - 1];
      ViewsComplete(front, perspective);
      var views, fv := ViewsOf(payloads, perspective), ViewsOf(front, perspective);
      assert forall v :: v in fv ==> v in views;
      forall k | 0 <= k < |front| ensures front[k] == payloads[k] { }
    }
  }

  /** When no prompt is missing, no question is dropped. */
  lemma {:induction false} ViewsKeepAll(payloads: seq<Questions.QuestionPayload>, perspective: string)
    ensures (forall k :: 0 <= k < |payloads| ==> PromptFor(payloads[k], perspective) != "") ==>
      |ViewsOf(payloads, perspective)| == |payloads|
  {
    if |payloads| > 0 && forall k :: 0 <= k < |payloads| ==> PromptFor(payloads[k], perspective) != "" {
      var front := payloads[..|payloads| - 1];
      forall k | 0 <= k < |front| ensures front[k] == payloads[k] { }
      ViewsKeepAll(front, perspective);
    }
  }

  /** The ids of the views keep the payloads' ascending order. */
  lemma {:induction false} ViewsAscending(payloads: seq<Questions.QuestionPayload>, perspective: string)
    requires forall i, j :: 0 <= i < j < |payloads| ==> payloads[i].id <= payloads[j].id
    ensures var views := ViewsOf(payloads, perspective);
      forall i, j :: 0 <= i < j < |views| ==> views[i].id <= views[j].id
  {
    if |payloads| > 0 {
      var front := payloads[..|payloads| - 1];
      ViewsAscending(front, perspective);
      ViewsFollowPayloads(front, perspective);
      var views := ViewsOf(front, perspective);
      forall j | 0 <= j < |views| ensures views[j].id <= payloads[|payloads| - 1].id {
        var k :| 0 <= k < |front| && views[j] == ViewOf(front[k], PromptFor(front[k], perspective));
      }
    }
  }

  // ---------------------------------------------------------------- scoring

  /** Python's round() on a float, read exactly: the nearest integer, ties to
    * the even one. */
  function RoundHalfEven(x: real): (n: int)
    ensures -0.5 <= x - n as real <= 0.5
    ensures (x - n as real == 0.5 || x - n as real == -0.5) ==> n % 2 == 0
  {
    var f := x.Floor;
    var frac := x - f as real;
    if frac < 0.5 then f
    else if frac > 0.5 then f + 1
    else if f % 2 == 0 then f
    else f + 1
  }

  /** Those two properties pick one integer: any integer within a half of x
    * that is even whenever it is exactly a half away is round(x). */
  lemma RoundUnique(x: real, m: int)
    requires -0.5 <= x - m as real <= 0.5
    requires (x - m as real == 0.5 || x - m as real == -0.5) ==> m % 2 == 0
    ensures m == RoundHalfEven(x)
  {
  }

  /** max(0, min(100, v)). */
  function Clamp(v: int): (c: int)
    ensures 0 <= c <= 100
    ensures 0 <= v <= 100 ==> c == v
  {
    if v < 0 then 0 else if v > 100 then 100 else v
  }

  /** primary_score of one axis. */
  function PrimaryScore(norm: real): int {
    Clamp(RoundHalfEven((norm + 1.0) * 50.0))
  }

  /** The letter appended for an axis: the first pole when its score is at
    * least the second's. */
  function ChosenLetter(d: Dim, norm: real): char {
    var primary := PrimaryScore(norm);
    if primary >= 100 - primary then PositiveLetter(d) else NegativeLetter(d)
  }

  /** The letters appended over the axes dims. */
  function LettersOf(norms: Scoring.Norms, dims: seq<Dim>): (t: string)
    ensures |t| == |dims|
  {
    if |dims| == 0 then [] else
    var d := dims[|dims| - 1];
    LettersOf(norms, dims[..|dims| - 1]) + [ChosenLetter(d, norms.Get(d))]
  }

  /** The scores dict after the axes dims: each pole's letter to its score. */
  function ScoreMapOf(norms: Scoring.Norms, dims: seq<Dim>): map<string, int> {
    if |dims| == 0 then map[] else
    var d := dims[|dims| - 1];
    var primary := PrimaryScore(norms.Get(d));
    ScoreMapOf(norms, dims[..|dims| - 1])[[PositiveLetter(d)] := primary][[NegativeLetter(d)] := 100 - primary]
  }

  /** What _score_answers returns: the type, the scores and the radar. */
  datatype MainScore = MainScore(mbtiType: string, scores: map<string, int>, radar: Scoring.Norms)

  /** The ValueError _score_answers raises. */
  datatype MainError = NoAnswers | ScoringFailed(error: Scoring.ScoringError)

  /** _score_answers on the answer pairs; lookup is _QUESTION_DIM_SIGN. */
  function ScoreOf(pairs: seq<Scoring.Answer>, lookup: map<int, Scoring.Keying>): Result<MainScore, MainError> {
    if |pairs| == 0 then Err(NoAnswers) else
    match Scoring.NormsOf(pairs, lookup)
    case Err(e) => Err(ScoringFailed(e))
    case Ok(norms) => Ok(MainScore(LettersOf(norms, Dimensions), ScoreMapOf(norms, Dimensions), Scoring.NormToRadar(norms)))
  }

  /** The loop over DIMENSIONS: one letter and two scores per axis. */
  method AxisScores(norms: Scoring.Norms, dims: seq<Dim>) returns (letters: string, scores: map<string, int>)
    ensures letters == LettersOf(norms, dims)
    ensures scores == ScoreMapOf(norms, dims)
  {
    letters := [];
    scores := map[];
    var i := 0;
    while i < |dims|
      invariant 0 <= i <= |dims|
      invariant letters == LettersOf(norms, dims[..i])
      invariant scores == ScoreMapOf(norms, dims[..i])
    {
      var d := dims[i];
      assert dims[..i + 1][..i] == dims[..i] && dims[..i + 1][i] == d;
      var primaryScore := Clamp(RoundHalfEven((norms.Get(d) + 1.0) * 50.0));
      var secondaryScore := 100 - primaryScore;
      scores := scores[[PositiveLetter(d)] := primaryScore][[NegativeLetter(d)] := secondaryScore];
      letters := letters + [if primaryScore >= secondaryScore then PositiveLetter(d) else NegativeLetter(d)];
      i := i + 1;
    }
    assert dims[..i] == dims;
  }

  /** _score_answers: reject an empty submission, compute the norms, then
    * score every axis. */
  method ScoreAnswers(pairs: seq<Scoring.Answer>, lookup: map<int, Scoring.Keying>)
    returns (r: Result<MainScore, MainError>)
    ensures r == ScoreOf(pairs, lookup)
  {
    if |pairs| == 0 {
      return Err(NoAnswers);
    }
    var norms := Scoring.ComputeNorms(pairs, lookup);
    if norms.Err? {
      return Err(ScoringFailed(norms.error));
    }
    var letters, scores := AxisScores(norms.value, Dimensions);
    r := Ok(MainScore(letters, scores, Scoring.NormToRadar(norms.value)));
  }

  // ---------------------------------------------------------------- properties

  /** The first pole wins exactly when its score is at least 50, which
    * happens exactly when the norm is at least -0.01: (norm + 1) * 50 =
    * 49.5 rounds to the even 50, so a perfect tie and a slight lean to the
    * second pole both go to the first. */
  lemma PrimaryChosenIff(d: Dim, norm: real)
    ensures ChosenLetter(d, norm) == PositiveLetter(d) <==> PrimaryScore(norm) >= 50
    ensures PrimaryScore(norm) >= 50 <==> norm >= -0.01
  {
    var x := (norm + 1.0) * 50.0;
    var n := RoundHalfEven(x);
    assert PositiveLetter(d) != NegativeLetter(d);
    if norm >= -0.01 {
      assert x >= 49.5;
    } else {
      assert x < 49.5;
    }
  }

  /** Inside [-1, 1] the clamp never bites: the first pole's score is the
    * radar value rounded, at most half a point away. */
  lemma PrimaryIsRoundedRadar(norm: real)
    requires -1.0 <= norm <= 1.0
    ensures PrimaryScore(norm) == RoundHalfEven((norm + 1.0) * 50.0)
    ensures -0.5 <= (norm + 1.0) * 50.0 - PrimaryScore(norm) as real <= 0.5
  {
    var x := (norm + 1.0) * 50.0;
    assert 0.0 <= x <= 100.0;
  }

  /** The letters: one per axis in DIMENSIONS order, the first pole exactly
    * when its score reaches 50, and always one of the sixteen types. */
  lemma {:induction false} LettersAreType(norms: Scoring.Norms)
    ensures var t := LettersOf(norms, Dimensions);
      t in ValidMbtiTypes &&
      forall d :: t[DimIndex(d)] == ChosenLetter(d, norms.Get(d)) &&
        (t[DimIndex(d)] == PositiveLetter(d) <==> PrimaryScore(norms.Get(d)) >= 50)
  {
    var t := LettersOf(norms, Dimensions);
    assert LettersOf(norms, [EI]) == [ChosenLetter(EI, norms.ei)] by { assert [EI][..0] == []; }
    assert LettersOf(norms, [EI, SN]) == [ChosenLetter(EI, norms.ei), ChosenLetter(SN, norms.sn)] by {
      assert [EI, SN][..1] == [EI];
    }
    assert LettersOf(norms, [EI, SN, TF]) == [ChosenLetter(EI, norms.ei), ChosenLetter(SN, norms.sn), ChosenLetter(TF, norms.tf)] by {
      assert [EI, SN, TF][..2] == [EI, SN];
    }
    assert Dimensions[..3] == [EI, SN, TF];
    assert t == [ChosenLetter(EI, norms.ei), ChosenLetter(SN, norms.sn), ChosenLetter(TF, norms.tf), ChosenLetter(JP, norms.jp)];
    ValidTypesAreCombinations(t);
    forall d ensures t[DimIndex(d)] == PositiveLetter(d) <==> PrimaryScore(norms.Get(d)) >= 50 {
      PrimaryChosenIff(d, norms.Get(d));
    }
  }

  /** The scores: both letters of every axis, nothing else, each between 0
    * and 100, the pair summing to 100. */
  lemma ScoresComplement(norms: Scoring.Norms, d: Dim)
    ensures var s := ScoreMapOf(norms, Dimensions);
      s.Keys == {"E", "I", "S", "N", "T", "F", "J", "P"} &&
      s[[PositiveLetter(d)]] == PrimaryScore(norms.Get(d)) &&
      s[[PositiveLetter(d)]] + s[[NegativeLetter(d)]] == 100 &&
      0 <= s[[NegativeLetter(d)]] <= 100
  {
    ScoreMapUnfolds(norms);
  }

  /** The score map written out letter by letter. */
  lemma ScoreMapUnfolds(norms: Scoring.Norms)
    ensures ScoreMapOf(norms, Dimensions) ==
      map["E" := PrimaryScore(norms.ei), "I" := 100 - PrimaryScore(norms.ei)]
         ["S" := PrimaryScore(norms.sn)]["N" := 100 - PrimaryScore(norms.sn)]
         ["T" := PrimaryScore(norms.tf)]["F" := 100 - PrimaryScore(norms.tf)]
         ["J" := PrimaryScore(norms.jp)]["P" := 100 - PrimaryScore(norms.jp)]
  {
    var p := PerDim(PrimaryScore(norms.ei), PrimaryScore(norms.sn), PrimaryScore(norms.tf), PrimaryScore(norms.jp));
    var one := map["E" := p.ei, "I" := 100 - p.ei];
    var two := one["S" := p.sn]["N" := 100 - p.sn];
    var three := two["T" := p.tf]["F" := 100 - p.tf];
    assert ScoreMapOf(norms, [EI]) == one by { assert [EI][..0] == []; }
    assert ScoreMapOf(norms, [EI, SN]) == two by { assert [EI, SN][..1] == [EI]; }
    assert ScoreMapOf(norms, [EI, SN, TF]) == three by { assert [EI, SN, TF][..2] == [EI, SN]; }
    assert Dimensions[..3] == [EI, SN, TF];
  }

  /** An empty submission is refused before any scoring; a non-empty one
    * fails exactly when the norms cannot be computed. */
  lemma ScoreFailures(pairs: seq<Scoring.Answer>, lookup: map<int, Scoring.Keying>)
    ensures |pairs| == 0 ==> ScoreOf(pairs, lookup) == Err(NoAnswers)
    ensures |pairs| > 0 ==> (ScoreOf(pairs, lookup).Err? <==> Scoring.NormsOf(pairs, lookup).Err?)
    ensures ScoreOf(pairs, lookup).Ok? ==> ScoreOf(pairs, lookup).value.mbtiType in ValidMbtiTypes
  {
    if ScoreOf(pairs, lookup).Ok? {
      LettersAreType(Scoring.NormsOf(pairs, lookup).value);
    }
  }

  // ---------------------------------------------------------------- summaries

  datatype Summary = Summary(title: string, description: string)

  /** MBTI_SUMMARIES. */
  const MbtiSummaries: map<string, Summary> := map[
    "ISTJ" := Summary("Logistician", "Calm planners who value duty and precise execution."),
    "ISFJ" := Summary("Defender", "Supportive caretakers focused on stability and trust."),
    "INFJ" := Summary("Advocate", "Idealistic advisors driven by values and long-term vision."),
    "INTJ" := Summary("Architect", "Independent strategists who map bold plans logically."),
    "ISTP" := Summary("Virtuoso", "Adaptable troubleshooters who master hands-on challenges."),
    "ISFP" := Summary("Adventurer", "Curious creators chasing experiences and personal freedom."),
    "INFP" := Summary("Mediator", "Empathetic dreamers guided by meaning and authenticity."),
    "INTP" := Summary("Logician", "Analytical theorists eager to explain complex systems."),
    "ESTP" := Summary("Entrepreneur", "Energetic realists who improvise and seize opportunities."),
    "ESFP" := Summary("Entertainer", "Expressive performers who energize any room."),
    "ENFP" := Summary("Campaigner", "Enthusiastic explorers who inspire with big ideas."),
    "ENTP" := Summary("Debater", "Inventive arguers who challenge limits and assumptions."),
    "ESTJ" := Summary("Executive", "Organized directors who drive progress with clarity."),
    "ESFJ" := Summary("Consul", "Community builders who nurture harmony and tradition."),
    "ENFJ" := Summary("Protagonist", "Persuasive mentors rallying teams around shared goals."),
    "ENTJ" := Summary("Commander", "Decisive leaders who align people behind ambitious targets.")
  ]

  /** _DEFAULT_SUMMARY. */
  const DefaultSummary: Summary :=
    Summary("Insight Coming Soon", "We are preparing a richer profile for this result.")

  /** MBTI_SUMMARIES.get(mbti_type, _DEFAULT_SUMMARY). */
  function SummaryFor(t: string): Summary {
    if t in MbtiSummaries then MbtiSummaries[t] else DefaultSummary
  }

  /** The summaries cover exactly the sixteen types: a scored type always
    * has its own summary, and only a string outside the sixteen falls back
    * to the default. */
  lemma SummaryCoverage(t: string)
    ensures t in MbtiSummaries <==> t in ValidMbtiTypes
    ensures t !in ValidMbtiTypes ==> SummaryFor(t) == DefaultSummary
    ensures t in ValidMbtiTypes ==> SummaryFor(t) != DefaultSummary
  {
    assert MbtiSummaries.Keys == ValidMbtiTypes;
    if t in ValidMbtiTypes {
      assert MbtiSummaries[t].title != DefaultSummary.title;
    }
  }

  // ---------------------------------------------------------------- lookup

  /** _QUESTION_DIM_SIGN: each question id's axis and sign. */
  function DimSignOf(seeds: seq<QL.QuestionSeed>): (m: map<int, Scoring.Keying>)
    ensures m.Keys == QL.LookupOf(seeds).Keys
  {
    var lookup := QL.LookupOf(seeds);
    map id | id in lookup :: Scoring.Keying(lookup[id].dim, lookup[id].sign)
  }

  /** Seeds signed +-1 give a keying table signed +-1. */
  lemma SignedLookup(seeds: seq<QL.QuestionSeed>)
    requires forall q :: q in seeds ==> QL.SeedSigned(q)
    ensures Scoring.UnitSigns(DimSignOf(seeds))
  {
    var lookup := DimSignOf(seeds);
    forall q | q in lookup ensures lookup[q].sign == 1 || lookup[q].sign == -1 {
      assert QL.LookupOf(seeds)[q] in seeds;
    }
  }

  /** Loaded seeds give signs of +-1, so every norm stays in [-1, 1] and no
    * primary score is clamped. */
  lemma LoadedNormsUnclamped(common: seq<QL.RawRecord>, modes: seq<(string, seq<QL.RawRecord>)>,
                             pairs: seq<Scoring.Answer>, d: Dim)
    requires QL.LoadSeeds(common, modes).Ok?
    requires Scoring.NormsOf(pairs, DimSignOf(QL.LoadSeeds(common, modes).value)).Ok?
    ensures Unclamped(Scoring.NormsOf(pairs, DimSignOf(QL.LoadSeeds(common, modes).value)).value.Get(d))
  {
    var seeds := QL.LoadSeeds(common, modes).value;
    QL.LoadedSeedsSigned(common, modes);
    SignedLookup(seeds);
    NormUnclamped(pairs, DimSignOf(seeds), d);
  }

  /** A norm in [-1, 1] whose primary score is the rounded radar value. */
  predicate Unclamped(norm: real) {
    -1.0 <= norm <= 1.0 && PrimaryScore(norm) == RoundHalfEven((norm + 1.0) * 50.0)
  }

  /** Under a keying signed +-1 a norm is in [-1, 1] and its primary score
    * is the rounded radar value. */
  lemma NormUnclamped(pairs: seq<Scoring.Answer>, lookup: map<int, Scoring.Keying>, d: Dim)
    requires Scoring.UnitSigns(lookup) && Scoring.NormsOf(pairs, lookup).Ok?
    ensures Unclamped(Scoring.NormsOf(pairs, lookup).value.Get(d))
  {
    Scoring.NormsInUnitRange(pairs, lookup, d);
    PrimaryIsRoundedRadar(Scoring.NormsOf(pairs, lookup).value.Get(d));
  }
}
