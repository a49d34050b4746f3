// The perception-gap scoring engine (app/services/scoring.py): Likert answers
// to four axis norms, relation weights, weighted mean and spread, and the gap
// between a person's self view and how others see them.
module Scoring {
  import opened Wrappers
  import opened Schemas
  import Text

  /** A question's axis and keying sign, as build_question_lookup stores it. */
  datatype Keying = Keying(dim: Dim, sign: int)

  /** One (question_id, value) answer pair. */
  datatype Answer = Answer(questionId: int, value: int)

  /** ScoringError, with the situation that raised it. */
  datatype ScoringError =
    | UnknownQuestion(questionId: int)
    | ValueOutOfRange(questionId: int)
    | MissingDimension(dim: Dim)
    | OtherNormsRequired
    | SelfResponsesMissing

  /** Per-axis values; compute_norms always fills all four axes. */
  type Norms = PerDim<real>

  // ---------------------------------------------------------------- norms

  /** Why compute_norms would refuse this one answer, if it would. */
  function Check(a: Answer, lookup: map<int, Keying>): Option<ScoringError> {
    if a.questionId !in lookup then Some(UnknownQuestion(a.questionId))
    else if a.value < 1 || a.value > 5 then Some(ValueOutOfRange(a.questionId))
    else None
  }

  /** The first refusal met when the answers are read in order. */
  function FirstRejected(answers: seq<Answer>, lookup: map<int, Keying>): Option<ScoringError> {
    if |answers| == 0 then None
    else
      var earlier := FirstRejected(answers[..|answers| - 1], lookup);
      if earlier.Some? then earlier else Check(answers[|answers| - 1], lookup)
  }

  /** sign * (value - 3) when the answer is keyed to axis d. */
  function Contribution(a: Answer, lookup: map<int, Keying>, d: Dim): int {
    if a.questionId in lookup && lookup[a.questionId].dim == d
    then lookup[a.questionId].sign * (a.value - 3) else 0
  }

  function Total(answers: seq<Answer>, lookup: map<int, Keying>, d: Dim): int {
    if |answers| == 0 then 0
    else Total(answers[..|answers| - 1], lookup, d) + Contribution(answers[|answers| - 1], lookup, d)
  }

  function Count(answers: seq<Answer>, lookup: map<int, Keying>, d: Dim): nat {
    if |answers| == 0 then 0
    else
      var last := answers[|answers| - 1];
      Count(answers[..|answers| - 1], lookup, d) +
        (if last.questionId in lookup && lookup[last.questionId].dim == d then 1 else 0)
  }

  /** The first axis, in DIMENSIONS order, that no answer covers. */
  function FirstEmptyDim(answers: seq<Answer>, lookup: map<int, Keying>, dims: seq<Dim>): (r: Option<Dim>)
    ensures r.None? <==> forall k :: 0 <= k < |dims| ==> Count(answers, lookup, dims[k]) > 0
    ensures r.Some? ==> r.value in dims && Count(answers, lookup, r.value) == 0
  {
    if |dims| == 0 then None
    else if Count(answers, lookup, dims[0]) == 0 then Some(dims[0])
    else FirstEmptyDim(answers, lookup, dims[1..])
  }

  /** What compute_norms returns or raises: per axis Σ sign·(v−3) / (2·count). */
  function NormsOf(answers: seq<Answer>, lookup: map<int, Keying>): Result<Norms, ScoringError> {
    var rejected := FirstRejected(answers, lookup);
    if rejected.Some? then Err(rejected.value)
    else
      var empty := FirstEmptyDim(answers, lookup, Dimensions);
      if empty.Some? then Err(MissingDimension(empty.value))
      else
        assert Count(answers, lookup, Dimensions[0]) > 0 && Count(answers, lookup, Dimensions[1]) > 0;
        assert Count(answers, lookup, Dimensions[2]) > 0 && Count(answers, lookup, Dimensions[3]) > 0;
        Ok(PerDim(Norm(answers, lookup, EI), Norm(answers, lookup, SN),
                  Norm(answers, lookup, TF), Norm(answers, lookup, JP)))
  }

  function Norm(answers: seq<Answer>, lookup: map<int, Keying>, d: Dim): real
    requires Count(answers, lookup, d) > 0
  {
    Total(answers, lookup, d) as real / (2 * Count(answers, lookup, d)) as real
  }

  /** compute_norms: one pass accumulating totals and counts per axis, then
    * one pass over DIMENSIONS dividing (or raising on an empty axis). */
  method ComputeNorms(answers: seq<Answer>, lookup: map<int, Keying>) returns (r: Result<Norms, ScoringError>)
    ensures r == NormsOf(answers, lookup)
  {
    var totals: PerDim<int> := Uniform(0);
    var counts: PerDim<nat> := Uniform(0);
    var i := 0;
    while i < |answers|
      invariant 0 <= i <= |answers|
      invariant FirstRejected(answers[..i], lookup) == None
      invariant forall d :: totals.Get(d) == Total(answers[..i], lookup, d)
      invariant forall d :: counts.Get(d) == Count(answers[..i], lookup, d)
    {
      var a := answers[i];
      assert answers[..i + 1][..i] == answers[..i];
      if a.questionId !in lookup {
        assert FirstRejected(answers[..i + 1], lookup) == Some(UnknownQuestion(a.questionId));
        PrefixRejectionSticks(answers, lookup, i + 1);
        return Err(UnknownQuestion(a.questionId));
      }
      if a.value < 1 || a.value > 5 {
        assert FirstRejected(answers[..i + 1], lookup) == Some(ValueOutOfRange(a.questionId));
        PrefixRejectionSticks(answers, lookup, i + 1);
        return Err(ValueOutOfRange(a.questionId));
      }
      var k := lookup[a.questionId];
      totals := totals.Set(k.dim, totals.Get(k.dim) + k.sign * (a.value - 3));
      counts := counts.Set(k.dim, counts.Get(k.dim) + 1);
      i := i + 1;
    }
    assert answers[..i] == answers;
    var norms: Norms := Uniform(0.0);
    var j := 0;
    while j < |Dimensions|
      invariant 0 <= j <= |Dimensions|
      invariant FirstEmptyDim(answers, lookup, Dimensions[..j]) == None
      invariant forall k :: 0 <= k < j ==> norms.Get(Dimensions[k]) == Norm(answers, lookup, Dimensions[k])
    {
      var d := Dimensions[j];
      if counts.Get(d) == 0 {
        FirstEmptyDimAt(answers, lookup, Dimensions, j);
        return Err(MissingDimension(d));
      }
      norms := norms.Set(d, totals.Get(d) as real / (2 * counts.Get(d)) as real);
      assert Dimensions[..j + 1] == Dimensions[..j] + [d];
      FirstEmptyDimAppend(answers, lookup, Dimensions[..j], d);
      j := j + 1;
    }
    assert Dimensions[..j] == Dimensions;
    assert norms == PerDim(norms.Get(Dimensions[0]), norms.Get(Dimensions[1]), norms.Get(Dimensions[2]), norms.Get(Dimensions[3]));
    r := Ok(norms);
  }

  lemma {:induction false} PrefixRejectionSticks(answers: seq<Answer>, lookup: map<int, Keying>, n: nat)
    requires n <= |answers| && FirstRejected(answers[..n], lookup).Some?
    ensures FirstRejected(answers, lookup) == FirstRejected(answers[..n], lookup)
    decreases |answers| - n
  {
    if n < |answers| {
      assert answers[..n + 1][..n] == answers[..n];
      PrefixRejectionSticks(answers, lookup, n + 1);
    } else {
      assert answers[..n] == answers;
    }
  }

  lemma {:induction false} FirstEmptyDimAppend(answers: seq<Answer>, lookup: map<int, Keying>, dims: seq<Dim>, d: Dim)
    requires FirstEmptyDim(answers, lookup, dims) == None && Count(answers, lookup, d) > 0
    ensures FirstEmptyDim(answers, lookup, dims + [d]) == None
  {
    var all := dims + [d];
    forall k | 0 <= k < |all| ensures Count(answers, lookup, all[k]) > 0 {
      if k < |dims| { assert all[k] == dims[k]; }
    }
  }

  lemma {:induction false} FirstEmptyDimAt(answers: seq<Answer>, lookup: map<int, Keying>, dims: seq<Dim>, j: nat)
    requires j < |dims| && FirstEmptyDim(answers, lookup, dims[..j]) == None
    requires Count(answers, lookup, dims[j]) == 0
    ensures FirstEmptyDim(answers, lookup, dims) == Some(dims[j])
  {
    if j > 0 {
      assert dims[..j][0] == dims[0];
      assert dims[1..][..j - 1] == dims[..j][1..];
      FirstEmptyDimAt(answers, lookup, dims[1..], j - 1);
    }
  }

  /** A single refused answer anywhere makes the whole call fail. */
  lemma {:induction false} RejectedAnswerFails(answers: seq<Answer>, lookup: map<int, Keying>, i: nat)
    requires i < |answers| && Check(answers[i], lookup).Some?
    ensures NormsOf(answers, lookup).Err?
  {
    FirstRejectedFindsAny(answers, lookup, i);
  }

  lemma {:induction false} FirstRejectedFindsAny(answers: seq<Answer>, lookup: map<int, Keying>, i: nat)
    requires i < |answers| && Check(answers[i], lookup).Some?
    ensures FirstRejected(answers, lookup).Some?
  {
    var front := answers[..|answers| - 1];
    if i < |answers| - 1 {
      assert front[i] == answers[i];
      FirstRejectedFindsAny(front, lookup, i);
    }
  }

  lemma {:induction false} AllAcceptedNoRejection(answers: seq<Answer>, lookup: map<int, Keying>)
    requires forall i :: 0 <= i < |answers| ==> Check(answers[i], lookup) == None
    ensures FirstRejected(answers, lookup) == None
  {
    if |answers| > 0 {
      var front := answers[..|answers| - 1];
      assert forall i :: 0 <= i < |front| ==> front[i] == answers[i];
      AllAcceptedNoRejection(front, lookup);
    }
  }

  /** compute_norms succeeds exactly when every answer names a known question
    * with a value in 1..5 and every axis is answered at least once; a success
    * then carries exactly the four axes. */
  lemma NormsSucceedIff(answers: seq<Answer>, lookup: map<int, Keying>)
    ensures NormsOf(answers, lookup).Ok? <==>
      (forall i :: 0 <= i < |answers| ==> Check(answers[i], lookup) == None) &&
      (forall d: Dim :: Count(answers, lookup, d) > 0)
  {
    if forall i :: 0 <= i < |answers| ==> Check(answers[i], lookup) == None {
      AllAcceptedNoRejection(answers, lookup);
    } else {
      var i :| 0 <= i < |answers| && Check(answers[i], lookup) != None;
      RejectedAnswerFails(answers, lookup, i);
    }
    var r := NormsOf(answers, lookup);
    if r.Ok? {
      forall d: Dim ensures Count(answers, lookup, d) > 0 {
        var k := DimIndex(d);
      }
    } else if FirstRejected(answers, lookup) == None {
      var e := FirstEmptyDim(answers, lookup, Dimensions);
      assert Count(answers, lookup, e.value) == 0;
    }
  }

  predicate UnitSigns(lookup: map<int, Keying>) {
    forall q :: q in lookup ==> lookup[q].sign == 1 || lookup[q].sign == -1
  }

  lemma {:induction false} TotalBounded(answers: seq<Answer>, lookup: map<int, Keying>, d: Dim)
    requires UnitSigns(lookup) && FirstRejected(answers, lookup) == None
    ensures -2 * Count(answers, lookup, d) <= Total(answers, lookup, d) <= 2 * Count(answers, lookup, d)
  {
    if |answers| > 0 {
      var front := answers[..|answers| - 1];
      assert FirstRejected(front, lookup) == None;
      TotalBounded(front, lookup, d);
    }
  }

  /** With signs of ±1 every norm lies in [-1, 1]. */
  lemma NormsInUnitRange(answers: seq<Answer>, lookup: map<int, Keying>, d: Dim)
    requires UnitSigns(lookup) && NormsOf(answers, lookup).Ok?
    ensures -1.0 <= NormsOf(answers, lookup).value.Get(d) <= 1.0
  {
    NormsSucceedIff(answers, lookup);
    TotalBounded(answers, lookup, d);
    var t := Total(answers, lookup, d) as real;
    var c := (2 * Count(answers, lookup, d)) as real;
    assert -c <= t <= c;
    DivBounded(t, c);
  }

  lemma DivBounded(t: real, c: real)
    requires c > 0.0 && -c <= t <= c
    ensures -1.0 <= t / c <= 1.0
  {
  }

  const ExampleLookup: map<int, Keying> :=
    map[1 := Keying(EI, 1), 2 := Keying(EI, -1), 3 := Keying(SN, 1), 4 := Keying(TF, 1), 5 := Keying(JP, -1)]

  const ExampleAnswers: seq<Answer> := [Answer(1, 5), Answer(2, 1), Answer(3, 3), Answer(4, 1), Answer(5, 5)]

  lemma ExampleTalliesFront()
    ensures var a3 := ExampleAnswers[..3];
      Count(a3, ExampleLookup, EI) == 2 && Total(a3, ExampleLookup, EI) == 4 &&
      Count(a3, ExampleLookup, SN) == 1 && Total(a3, ExampleLookup, SN) == 0 &&
      Count(a3, ExampleLookup, TF) == 0 && Total(a3, ExampleLookup, TF) == 0 &&
      Count(a3, ExampleLookup, JP) == 0 && Total(a3, ExampleLookup, JP) == 0
  {
    var a1, a2, a3 := ExampleAnswers[..1], ExampleAnswers[..2], ExampleAnswers[..3];
    assert a1[..0] == [] && a2[..1] == a1 && a3[..2] == a2;
    assert Count(a1, ExampleLookup, EI) == 1 && Total(a1, ExampleLookup, EI) == 2;
    assert Count(a1, ExampleLookup, SN) == 0 && Count(a1, ExampleLookup, TF) == 0 && Count(a1, ExampleLookup, JP) == 0;
    assert Total(a1, ExampleLookup, SN) == 0 && Total(a1, ExampleLookup, TF) == 0 && Total(a1, ExampleLookup, JP) == 0;
    assert Count(a2, ExampleLookup, EI) == 2 && Total(a2, ExampleLookup, EI) == 4;
    assert Count(a2, ExampleLookup, SN) == 0 && Count(a2, ExampleLookup, TF) == 0 && Count(a2, ExampleLookup, JP) == 0;
    assert Total(a2, ExampleLookup, SN) == 0 && Total(a2, ExampleLookup, TF) == 0 && Total(a2, ExampleLookup, JP) == 0;
  }

  /** The fixture of the scoring tests: EI answered 5 (+) and 1 (−), SN 3,
    * TF 1, JP 5 on a reversed item. */
  lemma NormsExample()
    ensures NormsOf(ExampleAnswers, ExampleLookup) == Ok(PerDim(1.0, 0.0, -1.0, -1.0))
  {
    var answers, lookup := ExampleAnswers, ExampleLookup;
    AllAcceptedNoRejection(answers, lookup);
    ExampleTalliesFront();
    var a3, a4 := answers[..3], answers[..4];
    assert a4[..3] == a3 && answers[..4] == a4;
    assert Count(a4, lookup, EI) == 2 && Total(a4, lookup, EI) == 4;
    assert Count(a4, lookup, SN) == 1 && Count(a4, lookup, TF) == 1 && Count(a4, lookup, JP) == 0;
    assert Total(a4, lookup, SN) == 0 && Total(a4, lookup, TF) == -2 && Total(a4, lookup, JP) == 0;
  }

  // ---------------------------------------------------------------- radar

  /** norm_to_radar, without the rounding to three places. */
  function NormToRadar(norms: Norms): (r: Norms)
    ensures RadarToNorm(r) == norms
    ensures forall d: Dim :: -1.0 <= norms.Get(d) <= 1.0 ==> 0.0 <= r.Get(d) <= 100.0
  {
    PerDim((norms.ei + 1.0) * 50.0, (norms.sn + 1.0) * 50.0, (norms.tf + 1.0) * 50.0, (norms.jp + 1.0) * 50.0)
  }

  /** The inverse reading of a radar value as a norm. */
  function RadarToNorm(radar: Norms): Norms {
    PerDim(radar.ei / 50.0 - 1.0, radar.sn / 50.0 - 1.0, radar.tf / 50.0 - 1.0, radar.jp / 50.0 - 1.0)
  }

  /** The radar scale is an exact re-scaling: it maps [-1, 1] onto [0, 100]
    * and can be undone. */
  lemma RadarRescales(norms: Norms, d: Dim)
    ensures RadarToNorm(NormToRadar(norms)) == norms
    ensures -1.0 <= norms.Get(d) <= 1.0 ==> 0.0 <= NormToRadar(norms).Get(d) <= 100.0
  {
  }

  // ---------------------------------------------------------------- weights

  /** RELATION_WEIGHTS.get(key, 1.0), keyed by the lower-cased tag (None for no tag). */
  function RelationWeight(key: Option<string>): real {
    match key
    case None => 1.0
    case Some(k) =>
      if k == "friend" then 1.0
      else if k == "core_friend" then 1.2
      else if k == "partner" || k == "couple" then 1.5
      else if k == "family" || k == "coworker" then 1.1
      else 1.0
  }

  /** weight_for_relation: never raises; an absent, empty or unknown tag weighs 1.0. */
  function WeightForRelation(tag: Option<string>): (w: real)
    ensures 1.0 <= w <= 1.5
    ensures (tag == None || tag == Some("")) ==> w == 1.0
  {
    var normalized := if tag.Some? && tag.value != "" then Some(Text.Lower(tag.value)) else None;
    RelationWeight(normalized)
  }

  /** The tag is matched case-insensitively. */
  lemma WeightIgnoresCase(tag: string)
    ensures WeightForRelation(Some(tag)) == WeightForRelation(Some(Text.Lower(tag)))
  {
    Text.LowerIdempotent(tag);
  }

  lemma WeightTable()
    ensures WeightForRelation(Some("Partner")) == 1.5 && WeightForRelation(Some("COUPLE")) == 1.5
    ensures WeightForRelation(Some("core_friend")) == 1.2
    ensures WeightForRelation(Some("Family")) == 1.1 && WeightForRelation(Some("coworker")) == 1.1
    ensures WeightForRelation(Some("friend")) == 1.0 && WeightForRelation(Some("stranger")) == 1.0
  {
    assert Text.Lower("Partner") == "partner";
    assert Text.Lower("COUPLE") == "couple";
    assert Text.Lower("Family") == "family";
    assert Text.Lower("core_friend") == "core_friend";
    assert Text.Lower("coworker") == "coworker";
    assert Text.Lower("friend") == "friend";
    assert Text.Lower("stranger") == "stranger";
  }

  // ---------------------------------------------------------------- weighted statistics

  function Sum(xs: seq<real>): real {
    if |xs| == 0 then 0.0 else xs[0] + Sum(xs[1..])
  }

  /** sum(v * w for v, w in zip(values, weights)): zip stops at the shorter list. */
  function SumProducts(values: seq<real>, weights: seq<real>): real {
    if |values| == 0 || |weights| == 0 then 0.0
    else values[0] * weights[0] + SumProducts(values[1..], weights[1..])
  }

  /** weighted_mean: 0.0 unless the weights sum to a positive number. */
  function WeightedMean(values: seq<real>, weights: seq<real>): real {
    var denominator := Sum(weights);
    if denominator <= 0.0 then 0.0 else SumProducts(values, weights) / denominator
  }

  function SumSquaredDeviation(values: seq<real>, weights: seq<real>, mean: real): real {
    if |values| == 0 || |weights| == 0 then 0.0
    else
      (weights[0] * (values[0] - mean) * (values[0] - mean) +
       SumSquaredDeviation(values[1..], weights[1..], mean))
  }

  /** The square of weighted_sigma (the square root is left out). */
  function WeightedVariance(values: seq<real>, weights: seq<real>): real {
    var denominator := Sum(weights);
    if denominator <= 0.0 then 0.0
    else SumSquaredDeviation(values, weights, WeightedMean(values, weights)) / denominator
  }

  predicate NonNegative(weights: seq<real>) {
    forall k :: 0 <= k < |weights| ==> weights[k] >= 0.0
  }

  /** Weighted values bounded below by lo: the weighted sum is at least lo times the total weight. */
  lemma {:induction false} SumProductsAtLeast(values: seq<real>, weights: seq<real>, lo: real)
    requires |values| == |weights| && NonNegative(weights)
    requires forall k :: 0 <= k < |values| ==> lo <= values[k]
    ensures lo * Sum(weights) <= SumProducts(values, weights)
  {
    if |values| > 0 {
      var vs, ws := values[1..], weights[1..];
      assert NonNegative(ws) && forall k :: 0 <= k < |vs| ==> lo <= vs[k] by {
        assert forall k :: 0 <= k < |vs| ==> vs[k] == values[k + 1] && ws[k] == weights[k + 1];
      }
      SumProductsAtLeast(vs, ws, lo);
      StepAtLeast(lo, values[0], weights[0], Sum(ws), SumProducts(vs, ws), Sum(weights), SumProducts(values, weights));
    }
  }

  /** Weighted values bounded above by hi: the weighted sum is at most hi times the total weight. */
  lemma {:induction false} SumProductsAtMost(values: seq<real>, weights: seq<real>, hi: real)
    requires |values| == |weights| && NonNegative(weights)
    requires forall k :: 0 <= k < |values| ==> values[k] <= hi
    ensures SumProducts(values, weights) <= hi * Sum(weights)
  {
    if |values| > 0 {
      var vs, ws := values[1..], weights[1..];
      assert NonNegative(ws) && forall k :: 0 <= k < |vs| ==> vs[k] <= hi by {
        assert forall k :: 0 <= k < |vs| ==> vs[k] == values[k + 1] && ws[k] == weights[k + 1];
      }
      SumProductsAtMost(vs, ws, hi);
      StepAtLeast(-hi, -values[0], weights[0], Sum(ws), -SumProducts(vs, ws), Sum(weights), -SumProducts(values, weights));
    }
  }

  /** One more weighted value at least lo keeps the weighted sum at least lo times the weight. */
  lemma StepAtLeast(lo: real, v: real, w: real, rest: real, restProducts: real, total: real, products: real)
    requires lo <= v && w >= 0.0 && lo * rest <= restProducts
    requires total == w + rest && products == v * w + restProducts
    ensures lo * total <= products
  {
    assert (v - lo) * w >= 0.0;
    Distribute(lo, w, rest, total);
  }

  lemma Distribute(x: real, a: real, b: real, s: real)
    requires s == a + b
    ensures x * s == x * a + x * b
  {
  }

  lemma MulMonotone(lo: real, v: real, hi: real, w: real)
    requires lo <= v <= hi && w >= 0.0
    ensures lo * w <= v * w <= hi * w
  {
    assert (v - lo) * w >= 0.0;
    assert (hi - v) * w >= 0.0;
  }

  lemma DivBetween(p: real, s: real, lo: real, hi: real)
    requires s > 0.0 && lo * s <= p <= hi * s
    ensures lo <= p / s <= hi
  {
    var q := p / s;
    assert q * s == p;
    if q < lo { MulStrict(q, lo, s); }
    if q > hi { MulStrict(hi, q, s); }
  }

  lemma MulStrict(a: real, b: real, s: real)
    requires a < b && s > 0.0
    ensures a * s < b * s
  {
    assert (b - a) * s > 0.0;
  }

  /** With non-negative weights summing to a positive number the weighted mean
    * lies between the smallest and largest value. */
  lemma WeightedMeanBetween(values: seq<real>, weights: seq<real>, lo: real, hi: real)
    requires |values| == |weights| && NonNegative(weights) && Sum(weights) > 0.0
    requires forall k :: 0 <= k < |values| ==> lo <= values[k] <= hi
    ensures lo <= WeightedMean(values, weights) <= hi
  {
    SumProductsAtLeast(values, weights, lo);
    SumProductsAtMost(values, weights, hi);
    DivBetween(SumProducts(values, weights), Sum(weights), lo, hi);
  }

  lemma {:induction false} SumSquaredDeviationNonNegative(values: seq<real>, weights: seq<real>, mean: real)
    requires NonNegative(weights)
    ensures SumSquaredDeviation(values, weights, mean) >= 0.0
  {
    if |values| > 0 && |weights| > 0 {
      SumSquaredDeviationNonNegative(values[1..], weights[1..], mean);
      var d := values[0] - mean;
      assert d * d >= 0.0;
      MulMonotone(0.0, d * d, d * d, weights[0]);
      assert weights[0] * d * d == d * d * weights[0];
    }
  }

  /** weighted_sigma is the square root of a non-negative quantity. */
  lemma WeightedVarianceNonNegative(values: seq<real>, weights: seq<real>)
    requires NonNegative(weights)
    ensures WeightedVariance(values, weights) >= 0.0
  {
    SumSquaredDeviationNonNegative(values, weights, WeightedMean(values, weights));
    var s := Sum(weights);
    if s > 0.0 {
      DivBetween(SumSquaredDeviation(values, weights, WeightedMean(values, weights)), s, 0.0,
        SumSquaredDeviation(values, weights, WeightedMean(values, weights)) / s);
    }
  }

  // ---------------------------------------------------------------- gap metrics

  /** The four results of compute_gap_metrics; `variance` holds sigma squared. */
  datatype GapMetrics = GapMetrics(aggOther: Norms, variance: Norms, gap: Norms, gapScore: real)

  /** [norm[dim] for norm in other_norms]. */
  function Column(others: seq<Norms>, d: Dim): (col: seq<real>)
    ensures |col| == |others| && forall k :: 0 <= k < |others| ==> col[k] == others[k].Get(d)
  {
    seq(|others|, k requires 0 <= k < |others| => others[k].Get(d))
  }

  function Abs(x: real): real {
    if x < 0.0 then -x else x
  }

  /** fmean(abs(gaps[dim]) for dim in DIMENSIONS) * 100. */
  function GapScore(gap: Norms): real {
    (Abs(gap.ei) + Abs(gap.sn) + Abs(gap.tf) + Abs(gap.jp)) / 4.0 * 100.0
  }

  /** What compute_gap_metrics returns or raises. */
  function GapMetricsOf(selfNorm: Norms, others: seq<Norms>, weights: seq<real>): (r: Result<GapMetrics, ScoringError>)
    ensures r.Err? <==> |others| == 0 || |weights| == 0
    ensures r.Ok? ==> forall d: Dim :: r.value.aggOther.Get(d) == WeightedMean(Column(others, d), weights)
    ensures r.Ok? ==> forall d: Dim :: r.value.gap.Get(d) == r.value.aggOther.Get(d) - selfNorm.Get(d)
  {
    if |others| == 0 || |weights| == 0 then Err(OtherNormsRequired)
    else
      var agg := PerDim(WeightedMean(Column(others, EI), weights), WeightedMean(Column(others, SN), weights),
                        WeightedMean(Column(others, TF), weights), WeightedMean(Column(others, JP), weights));
      var variance := PerDim(WeightedVariance(Column(others, EI), weights), WeightedVariance(Column(others, SN), weights),
                             WeightedVariance(Column(others, TF), weights), WeightedVariance(Column(others, JP), weights));
      var gap := PerDim(agg.ei - selfNorm.ei, agg.sn - selfNorm.sn, agg.tf - selfNorm.tf, agg.jp - selfNorm.jp);
      Ok(GapMetrics(agg, variance, gap, GapScore(gap)))
  }

  /** compute_gap_metrics: raises on an empty list of other norms or weights;
    * otherwise fills the three per-axis dictionaries one axis at a time. */
  method ComputeGapMetrics(selfNorm: Norms, others: seq<Norms>, weights: seq<real>)
    returns (r: Result<GapMetrics, ScoringError>)
    ensures r.Err? <==> |others| == 0 || |weights| == 0
    ensures r.Err? ==> r.error == OtherNormsRequired
    ensures r.Ok? ==>
      (forall d ::
        r.value.aggOther.Get(d) == WeightedMean(Column(others, d), weights) &&
        r.value.variance.Get(d) == WeightedVariance(Column(others, d), weights) &&
        r.value.gap.Get(d) == r.value.aggOther.Get(d) - selfNorm.Get(d)) &&
      r.value.gapScore == GapScore(r.value.gap)
    ensures r == GapMetricsOf(selfNorm, others, weights)
  {
    if |others| == 0 || |weights| == 0 {
      return Err(OtherNormsRequired);
    }
    var agg: Norms := Uniform(0.0);
    var variance: Norms := Uniform(0.0);
    var gaps: Norms := Uniform(0.0);
    var j := 0;
    while j < |Dimensions|
      invariant 0 <= j <= |Dimensions|
      invariant forall k :: 0 <= k < j ==>
        var d := Dimensions[k];
        agg.Get(d) == WeightedMean(Column(others, d), weights) &&
        variance.Get(d) == WeightedVariance(Column(others, d), weights) &&
        gaps.Get(d) == agg.Get(d) - selfNorm.Get(d)
    {
      var d := Dimensions[j];
      var values := Column(others, d);
      var mean := WeightedMean(values, weights);
      agg := agg.Set(d, mean);
      variance := variance.Set(d, WeightedVariance(values, weights));
      gaps := gaps.Set(d, mean - selfNorm.Get(d));
      j := j + 1;
    }
    forall d ensures
      agg.Get(d) == WeightedMean(Column(others, d), weights) &&
      variance.Get(d) == WeightedVariance(Column(others, d), weights) &&
      gaps.Get(d) == agg.Get(d) - selfNorm.Get(d)
    {
      var k := DimIndex(d);
    }
    r := Ok(GapMetrics(agg, variance, gaps, GapScore(gaps)));
  }

  /** With norms in [-1, 1] and non-negative weights, each aggregated axis stays
    * in [-1, 1], so each gap is at most 2 in size and the gap score at most 200. */
  lemma GapBounded(selfNorm: Norms, others: seq<Norms>, weights: seq<real>)
    requires |others| == |weights| && NonNegative(weights) && Sum(weights) > 0.0
    requires forall k, e :: 0 <= k < |others| ==> -1.0 <= others[k].Get(e) <= 1.0
    requires forall e :: -1.0 <= selfNorm.Get(e) <= 1.0
    ensures forall d :: -1.0 <= WeightedMean(Column(others, d), weights) <= 1.0
    ensures
      var gap := PerDim(WeightedMean(Column(others, EI), weights) - selfNorm.ei,
                        WeightedMean(Column(others, SN), weights) - selfNorm.sn,
                        WeightedMean(Column(others, TF), weights) - selfNorm.tf,
                        WeightedMean(Column(others, JP), weights) - selfNorm.jp);
      0.0 <= GapScore(gap) <= 200.0
  {
    forall d ensures -1.0 <= WeightedMean(Column(others, d), weights) <= 1.0 {
      WeightedMeanBetween(Column(others, d), weights, -1.0, 1.0);
    }
    assert -1.0 <= selfNorm.Get(EI) && -1.0 <= selfNorm.Get(SN) && -1.0 <= selfNorm.Get(TF) && -1.0 <= selfNorm.Get(JP);
    assert selfNorm.Get(EI) <= 1.0 && selfNorm.Get(SN) <= 1.0 && selfNorm.Get(TF) <= 1.0 && selfNorm.Get(JP) <= 1.0;
  }

  /** The fixture of the gap test: self at 0 on every axis, two raters weighted
    * 1.0 and 1.5; the aggregate is (−0.4, 0.7, 0.1, −0.4), the EI variance
    * is 0.24 and the gap score is 40. */
  lemma GapExample()
    ensures
      var others := [PerDim(-1.0, 1.0, 1.0, -1.0), PerDim(0.0, 0.5, -0.5, 0.0)];
      var weights := [1.0, 1.5];
      var agg := PerDim(WeightedMean(Column(others, EI), weights), WeightedMean(Column(others, SN), weights),
                        WeightedMean(Column(others, TF), weights), WeightedMean(Column(others, JP), weights));
      agg == PerDim(-0.4, 0.7, 0.1, -0.4) &&
      WeightedVariance(Column(others, EI), weights) == 0.24 &&
      GapScore(agg) == 40.0
  {
    var others := [PerDim(-1.0, 1.0, 1.0, -1.0), PerDim(0.0, 0.5, -0.5, 0.0)];
    var weights := [1.0, 1.5];
    assert Sum(weights) == 2.5;
    assert Column(others, EI) == [-1.0, 0.0];
    assert Column(others, SN) == [1.0, 0.5];
    assert Column(others, TF) == [1.0, -0.5];
    assert Column(others, JP) == [-1.0, 0.0];
  }
}
