// The couple questionnaire model (app/core_scoring/__init__.py): eight scales
// of six Likert items, reverse keying, fail-closed scale means, per-item and
// per-scale partner deltas, rule-based flags, insight cards and gap grading.
// Python dicts that are iterated are insertion-ordered association lists;
// the raw answer dicts, only ever looked up, are maps.
module CoupleScoring {
  import opened Wrappers
  import Text
  import Sorting
  import OM = OrderedMaps
  import Scoring

  /** SCALES, in declaration order. */
  const Scales: seq<string> := ["CS", "EA", "CB", "PD", "RP", "LF", "IN", "SF"]

  /** SCALES[scale]: the scale name followed by the ordinals 1..6. */
  function ScaleCodes(scale: string): (codes: seq<string>)
    ensures |codes| == 6
    ensures forall m :: 0 <= m < 6 ==> codes[m] == scale + [Text.DigitChar(m + 1)]
  {
    seq(6, m requires 0 <= m < 6 => scale + [Text.DigitChar(m + 1)])
  }

  /** The i-th key of QUESTION_TO_SCALE: scale i / 6, ordinal i % 6 + 1. */
  function CodeAt(i: nat): string
    requires i < 48
  {
    ScaleCodes(Scales[i / 6])[i % 6]
  }

  /** The keys of QUESTION_TO_SCALE in order: every scale's six codes. */
  function AllCodes(): (codes: seq<string>)
    ensures |codes| == 48 && forall i :: 0 <= i < 48 ==> codes[i] == CodeAt(i)
  {
    seq(48, i requires 0 <= i < 48 => CodeAt(i))
  }

  /** QUESTION_TO_SCALE[code]: the two-letter scale prefix. */
  function ScaleOf(code: string): string {
    if |code| >= 2 then code[..2] else ""
  }

  lemma ScalesDistinct()
    ensures forall i, j :: 0 <= i < j < |Scales| ==> Scales[i] != Scales[j]
    ensures forall i :: 0 <= i < |Scales| ==> |Scales[i]| == 2
  {
  }

  /** The 48 codes are pairwise distinct and each maps back to its scale. */
  lemma AllCodesDistinct()
    ensures |AllCodes()| == 48
    ensures forall i :: 0 <= i < 48 ==> ScaleOf(AllCodes()[i]) == Scales[i / 6]
    ensures forall i, j :: 0 <= i < j < 48 ==> AllCodes()[i] != AllCodes()[j]
  {
    ScalesDistinct();
    forall i | 0 <= i < 48 ensures ScaleOf(AllCodes()[i]) == Scales[i / 6] && AllCodes()[i][2] == Text.DigitChar(i % 6 + 1) {
      assert AllCodes()[i] == Scales[i / 6] + [Text.DigitChar(i % 6 + 1)];
    }
  }

  /** The codes of SCALES[scale] are the scale's slice of QUESTION_TO_SCALE. */
  lemma ScaleCodesInAll(k: nat)
    requires k < |Scales|
    ensures forall m :: 0 <= m < 6 ==> ScaleCodes(Scales[k])[m] == AllCodes()[6 * k + m]
  {
  }

  // === score_item ===========================================================

  const RevItems: set<string> := {
    "CS2", "CB1", "CB2", "CB3", "CB4", "PD5", "PD6", "LF2", "LF5", "IN4", "SF3", "SF6"
  }

  datatype ScoringError =
    | ValueRequired(code: string)
    | ValueOutOfRange(code: string, upper: int, value: int)
    | MissingResponses(codes: seq<string>)
    | NoValues

  /** SF1 is answered on 0..10, every other item on 0..4. */
  function UpperBound(code: string): int {
    if code == "SF1" then 10 else 4
  }

  /** score_item: an answer normalised to the 0..4 scale. */
  function ScoreItem(code: string, value: Option<int>): (r: Result<real, ScoringError>)
    ensures value.None? ==> r == Err(ValueRequired(code))
    ensures value.Some? ==> (r.Ok? <==> 0 <= value.value <= UpperBound(code))
    ensures r.Ok? ==> 0.0 <= r.value <= 4.0
  {
    if value.None? then Err(ValueRequired(code))
    else
      var v := value.value;
      var upper := UpperBound(code);
      if v < 0 || v > upper then Err(ValueOutOfRange(code, upper, v))
      else if code in RevItems then Ok((4 - v) as real)
      else if code == "SF1" then Ok(v as real * 0.4)
      else Ok(v as real)
  }

  /** A higher answer scores lower on a reverse-keyed item and higher on any
    * other item; a reverse-keyed answer and its score add up to 4. */
  lemma ScoreItemKeying(code: string, v: int, w: int)
    requires 0 <= v <= w <= UpperBound(code)
    ensures code in RevItems ==> ScoreItem(code, Some(v)).value >= ScoreItem(code, Some(w)).value
    ensures code in RevItems ==> ScoreItem(code, Some(v)).value + v as real == 4.0
    ensures code !in RevItems ==> ScoreItem(code, Some(v)).value <= ScoreItem(code, Some(w)).value
  {
  }

  // === scale_mean ===========================================================

  /** The error score_item raises for the first answered code it rejects. */
  function FirstInvalid(codes: seq<string>, answers: map<string, int>): Option<ScoringError> {
    if |codes| == 0 then None
    else
      var front := FirstInvalid(codes[..|codes| - 1], answers);
      var c := codes[|codes| - 1];
      if front.Some? then front
      else if c in answers && ScoreItem(c, Some(answers[c])).Err? then Some(ScoreItem(c, Some(answers[c])).error)
      else None
  }

  /** The codes without an answer, in the order of codes. */
  function MissingCodes(codes: seq<string>, answers: map<string, int>): (m: seq<string>)
    ensures forall x :: x in m <==> x in codes && x !in answers
  {
    if |codes| == 0 then []
    else
      var c := codes[|codes| - 1];
      assert codes == codes[..|codes| - 1] + [c];
      MissingCodes(codes[..|codes| - 1], answers) + (if c in answers then [] else [c])
  }

  /** The scores of the answered codes that score_item accepts, in order. */
  function ItemScores(codes: seq<string>, answers: map<string, int>): (s: seq<real>)
    ensures |s| <= |codes|
    ensures forall k :: 0 <= k < |s| ==> 0.0 <= s[k] <= 4.0
  {
    if |codes| == 0 then []
    else
      var c := codes[|codes| - 1];
      var front := ItemScores(codes[..|codes| - 1], answers);
      if c in answers && ScoreItem(c, Some(answers[c])).Ok? then front + [ScoreItem(c, Some(answers[c])).value]
      else front
  }

  /** What scale_mean returns or raises: the first rejected answer wins, then
    * the sorted list of missing codes, then the empty scale; otherwise the
    * mean of the item scores. */
  function ScaleMeanOf(codes: seq<string>, answers: map<string, int>): Result<real, ScoringError> {
    var bad := FirstInvalid(codes, answers);
    if bad.Some? then Err(bad.value)
    else
      var missing := MissingCodes(codes, answers);
      if |missing| > 0 then Err(MissingResponses(Sorting.Sort(missing, Sorting.ByStr)))
      else
        var values := ItemScores(codes, answers);
        if |values| == 0 then Err(NoValues) else Ok(Scoring.Sum(values) / |values| as real)
  }

  lemma {:induction false} FirstInvalidSticks(codes: seq<string>, answers: map<string, int>, n: nat)
    requires n <= |codes| && FirstInvalid(codes[..n], answers).Some?
    ensures FirstInvalid(codes, answers) == FirstInvalid(codes[..n], answers)
    decreases |codes| - n
  {
    if n < |codes| {
      assert codes[..n + 1][..n] == codes[..n];
      FirstInvalidSticks(codes, answers, n + 1);
    } else {
      assert codes[..n] == codes;
    }
  }

  /** scale_mean: the walk over the codes, then the checks on what it
    * collected. */
  method ScaleMean(codes: seq<string>, answers: map<string, int>) returns (r: Result<real, ScoringError>)
    ensures r == ScaleMeanOf(codes, answers)
  {
    var bad, values, missing := ScanCodes(codes, answers);
    if bad.Some? {
      return Err(bad.value);
    }
    if |missing| > 0 {
      return Err(MissingResponses(Sorting.Sort(missing, Sorting.ByStr)));
    }
    if |values| == 0 {
      return Err(NoValues);
    }
    return Ok(Scoring.Sum(values) / |values| as real);
  }

  /** The loop of scale_mean: it collects scores and missing codes, and the
    * first answer score_item rejects aborts it. */
  method ScanCodes(codes: seq<string>, answers: map<string, int>)
    returns (bad: Option<ScoringError>, values: seq<real>, missing: seq<string>)
    ensures bad == FirstInvalid(codes, answers)
    ensures bad.None? ==> values == ItemScores(codes, answers) && missing == MissingCodes(codes, answers)
  {
    values, missing := [], [];
    var i := 0;
    while i < |codes|
      invariant 0 <= i <= |codes|
      invariant FirstInvalid(codes[..i], answers) == None
      invariant values == ItemScores(codes[..i], answers)
      invariant missing == MissingCodes(codes[..i], answers)
    {
      var code := codes[i];
      ScanStep(codes, answers, i);
      if code !in answers {
        missing := missing + [code];
      } else {
        var scored := ScoreItem(code, Some(answers[code]));
        if scored.Err? {
          FirstInvalidSticks(codes, answers, i + 1);
          return Some(scored.error), values, missing;
        }
        values := values + [scored.value];
      }
      i := i + 1;
    }
    assert codes[..i] == codes;
    bad := None;
  }

  /** One code of the walk: how the three accumulations grow. */
  lemma ScanStep(codes: seq<string>, answers: map<string, int>, i: nat)
    requires i < |codes|
    ensures FirstInvalid(codes[..i + 1], answers) ==
      if FirstInvalid(codes[..i], answers).Some? then FirstInvalid(codes[..i], answers)
      else if codes[i] in answers && ScoreItem(codes[i], Some(answers[codes[i]])).Err? then
        Some(ScoreItem(codes[i], Some(answers[codes[i]])).error)
      else None
    ensures ItemScores(codes[..i + 1], answers) ==
      ItemScores(codes[..i], answers) +
      (if codes[i] in answers && ScoreItem(codes[i], Some(answers[codes[i]])).Ok? then
         [ScoreItem(codes[i], Some(answers[codes[i]])).value] else [])
    ensures MissingCodes(codes[..i + 1], answers) ==
      MissingCodes(codes[..i], answers) + (if codes[i] in answers then [] else [codes[i]])
  {
    var front, last := codes[..i + 1], codes[i];
    assert front[..i] == codes[..i] && front[i] == last;
  }

  lemma {:induction false} FirstInvalidFindsAny(codes: seq<string>, answers: map<string, int>, k: nat)
    requires k < |codes| && codes[k] in answers && ScoreItem(codes[k], Some(answers[codes[k]])).Err?
    ensures FirstInvalid(codes, answers).Some?
  {
    if k < |codes| - 1 {
      assert codes[..|codes| - 1][k] == codes[k];
      FirstInvalidFindsAny(codes[..|codes| - 1], answers, k);
    }
  }

  /** With no rejected answer and nothing missing, every code contributes a score. */
  lemma {:induction false} CompleteScoresAll(codes: seq<string>, answers: map<string, int>)
    requires FirstInvalid(codes, answers) == None && |MissingCodes(codes, answers)| == 0
    ensures |ItemScores(codes, answers)| == |codes|
  {
    if |codes| > 0 {
      var front := codes[..|codes| - 1];
      assert forall x :: x in front ==> x in codes;
      assert |MissingCodes(front, answers)| == 0;
      CompleteScoresAll(front, answers);
    }
  }

  lemma {:induction false} SumBetween(xs: seq<real>, lo: real, hi: real)
    requires forall k :: 0 <= k < |xs| ==> lo <= xs[k] <= hi
    ensures |xs| as real * lo <= Scoring.Sum(xs) <= |xs| as real * hi
  {
    if |xs| > 0 {
      SumBetween(xs[1..], lo, hi);
    }
  }

  predicate AllAnsweredInRange(codes: seq<string>, answers: map<string, int>) {
    forall k :: 0 <= k < |codes| ==> codes[k] in answers && 0 <= answers[codes[k]] <= UpperBound(codes[k])
  }

  /** scale_mean fails closed: it succeeds exactly when every code is
    * answered within range and there is at least one code, and the mean then
    * covers all of the codes. */
  lemma ScaleMeanSucceedsIff(codes: seq<string>, answers: map<string, int>)
    ensures ScaleMeanOf(codes, answers).Ok? <==> AllAnsweredInRange(codes, answers) && |codes| > 0
    ensures ScaleMeanOf(codes, answers).Ok? ==> |ItemScores(codes, answers)| == |codes|
  {
    var missing := MissingCodes(codes, answers);
    if ScaleMeanOf(codes, answers).Ok? {
      CompleteScoresAll(codes, answers);
      forall k | 0 <= k < |codes| ensures codes[k] in answers && 0 <= answers[codes[k]] <= UpperBound(codes[k]) {
        assert codes[k] !in missing;
        if !(0 <= answers[codes[k]] <= UpperBound(codes[k])) {
          FirstInvalidFindsAny(codes, answers, k);
        }
      }
    }
    if AllAnsweredInRange(codes, answers) && |codes| > 0 {
      NoInvalidWhenValid(codes, answers);
      NoneMissingWhenAnswered(codes, answers);
      CompleteScoresAll(codes, answers);
    }
  }

  /** A scale mean lies on the 0..4 answer scale. */
  lemma ScaleMeanInRange(codes: seq<string>, answers: map<string, int>)
    requires ScaleMeanOf(codes, answers).Ok?
    ensures 0.0 <= ScaleMeanOf(codes, answers).value <= 4.0
  {
    var values := ItemScores(codes, answers);
    SumBetween(values, 0.0, 4.0);
  }

  /** When no answer is rejected but a code is unanswered, the error lists
    * exactly the unanswered codes, sorted. */
  lemma ScaleMeanListsMissing(codes: seq<string>, answers: map<string, int>, c: string)
    requires FirstInvalid(codes, answers) == None && c in codes && c !in answers
    ensures var r := ScaleMeanOf(codes, answers);
      r.Err? && r.error.MissingResponses? &&
      Sorting.SortedBy(r.error.codes, Sorting.ByStr) &&
      multiset(r.error.codes) == multiset(MissingCodes(codes, answers)) &&
      (forall x :: x in r.error.codes <==> x in codes && x !in answers)
  {
    var missing := MissingCodes(codes, answers);
    assert c in missing;
    Sorting.ByStrTotal();
    Sorting.SortCorrect(missing, Sorting.ByStr);
    forall x ensures x in Sorting.Sort(missing, Sorting.ByStr) <==> x in missing {
      assert x in multiset(Sorting.Sort(missing, Sorting.ByStr)) <==> x in multiset(missing);
    }
  }

  lemma {:induction false} NoneMissingWhenAnswered(codes: seq<string>, answers: map<string, int>)
    requires forall k :: 0 <= k < |codes| ==> codes[k] in answers
    ensures MissingCodes(codes, answers) == []
  {
    if |codes| > 0 {
      NoneMissingWhenAnswered(codes[..|codes| - 1], answers);
    }
  }

  lemma {:induction false} NoInvalidWhenValid(codes: seq<string>, answers: map<string, int>)
    requires forall k :: 0 <= k < |codes| ==> codes[k] in answers ==> 0 <= answers[codes[k]] <= UpperBound(codes[k])
    ensures FirstInvalid(codes, answers) == None
  {
    if |codes| > 0 {
      NoInvalidWhenValid(codes[..|codes| - 1], answers);
    }
  }

  // === compute_scale_means ==================================================

  /** The dict comprehension over the given scales: the first scale whose
    * mean raises aborts it with that scale's error. */
  function ScaleMeansOver(scales: seq<string>, answers: map<string, int>): (r: Result<seq<(string, real)>, ScoringError>)
    ensures r.Ok? <==> forall k :: 0 <= k < |scales| ==> ScaleMeanOf(ScaleCodes(scales[k]), answers).Ok?
    ensures r.Ok? ==> |r.value| == |scales|
    ensures r.Ok? ==> forall k :: 0 <= k < |scales| ==> r.value[k] == (scales[k], ScaleMeanOf(ScaleCodes(scales[k]), answers).value)
    ensures r.Err? ==> exists k :: 0 <= k < |scales| && ScaleMeanOf(ScaleCodes(scales[k]), answers) == Err(r.error)
  {
    MeansOver(scales, s => ScaleMeanOf(ScaleCodes(s), answers))
  }

  /** The comprehension for any per-scale mean. */
  function MeansOver(scales: seq<string>, mean: string -> Result<real, ScoringError>): (r: Result<seq<(string, real)>, ScoringError>)
    ensures r.Ok? <==> forall k :: 0 <= k < |scales| ==> mean(scales[k]).Ok?
    ensures r.Ok? ==> |r.value| == |scales|
    ensures r.Ok? ==> forall k :: 0 <= k < |scales| ==> r.value[k] == (scales[k], mean(scales[k]).value)
    ensures r.Err? ==> exists k :: 0 <= k < |scales| && mean(scales[k]) == Err(r.error)
  {
    if |scales| == 0 then Ok([])
    else
      var n := |scales| - 1;
      var front := MeansOver(scales[..n], mean);
      var m := mean(scales[n]);
      assert forall k :: 0 <= k < n ==> scales[..n][k] == scales[k];
      if front.Err? then Err(front.error)
      else if m.Err? then Err(m.error)
      else
        var means := front.value + [(scales[n], m.value)];
        assert forall k :: 0 <= k < n ==> means[k] == front.value[k];
        Ok(means)
  }

  /** compute_scale_means: one mean per scale, keyed in SCALES order. */
  function ComputeScaleMeans(answers: map<string, int>): Result<seq<(string, real)>, ScoringError> {
    ScaleMeansOver(Scales, answers)
  }

  /** An answer set covering every code within range yields all eight scale
    * means, each on the 0..4 scale. */
  lemma CompleteAnswersScore(answers: map<string, int>)
    requires forall c :: c in AllCodes() ==> c in answers && 0 <= answers[c] <= UpperBound(c)
    ensures ComputeScaleMeans(answers).Ok?
    ensures OM.Keys(ComputeScaleMeans(answers).value) == Scales
    ensures forall k :: 0 <= k < |Scales| ==> 0.0 <= ComputeScaleMeans(answers).value[k].1 <= 4.0
  {
    forall k | 0 <= k < |Scales| ensures ScaleMeanOf(ScaleCodes(Scales[k]), answers).Ok? {
      ScaleCodesInAll(k);
      var codes := ScaleCodes(Scales[k]);
      forall m | 0 <= m < 6 ensures codes[m] in AllCodes() {
        assert codes[m] == AllCodes()[6 * k + m];
      }
      ScaleMeanSucceedsIff(codes, answers);
    }
    var r := ComputeScaleMeans(answers).value;
    forall k | 0 <= k < |Scales| ensures 0.0 <= r[k].1 <= 4.0 {
      ScaleMeanInRange(ScaleCodes(Scales[k]), answers);
    }
  }

  // === compute_deltas =======================================================

  /** |guess - partner's self| for each code, in QUESTION_TO_SCALE order,
    * keeping the codes present in both answer sets. */
  function DeltaItems(codes: seq<string>, guess: map<string, int>, actual: map<string, int>): (d: seq<(string, real)>)
    ensures |d| <= |codes|
    ensures forall k :: 0 <= k < |d| ==> (d[k].0 in codes && d[k].0 in guess && d[k].0 in actual &&
      d[k].1 == Scoring.Abs(guess[d[k].0] as real - actual[d[k].0] as real))
    ensures forall c :: c in codes && c in guess && c in actual ==> OM.HasKey(d, c)
  {
    if |codes| == 0 then []
    else
      var c := codes[|codes| - 1];
      var front := DeltaItems(codes[..|codes| - 1], guess, actual);
      assert codes == codes[..|codes| - 1] + [c];
      var r := if c in guess && c in actual then front + [(c, Scoring.Abs(guess[c] as real - actual[c] as real))] else front;
      assert forall x :: x in codes[..|codes| - 1] && x in guess && x in actual ==> OM.HasKey(r, x) by {
        forall x | x in codes[..|codes| - 1] && x in guess && x in actual ensures OM.HasKey(r, x) {
          var k :| 0 <= k < |front| && front[k].0 == x;
          assert r[k] == front[k];
        }
      }
      assert c in guess && c in actual ==> r[|r| - 1].0 == c;
      r
  }

  /** The values delta_items holds for codes of the given scale, in order. */
  function ScaleValues(items: seq<(string, real)>, scale: string): (vs: seq<real>)
    ensures |vs| <= |items|
    ensures forall v :: v in vs ==> exists k :: 0 <= k < |items| && ScaleOf(items[k].0) == scale && items[k].1 == v
  {
    if |items| == 0 then []
    else
      var last := items[|items| - 1];
      var front := ScaleValues(items[..|items| - 1], scale);
      assert forall v :: v in front ==> exists k :: 0 <= k < |items| && ScaleOf(items[k].0) == scale && items[k].1 == v by {
        forall v | v in front ensures exists k :: 0 <= k < |items| && ScaleOf(items[k].0) == scale && items[k].1 == v {
          var k :| 0 <= k < |items| - 1 && ScaleOf(items[..|items| - 1][k].0) == scale && items[..|items| - 1][k].1 == v;
          assert items[k] == items[..|items| - 1][k];
        }
      }
      if ScaleOf(last.0) == scale then front + [last.1] else front
  }

  /** The mean of a list, or 0.0 for an empty one. */
  function MeanOrZero(vs: seq<real>): real {
    if |vs| == 0 then 0.0 else Scoring.Sum(vs) / |vs| as real
  }

  /** scale_delta: the mean delta of each scale's items, 0.0 for none. */
  function ScaleDelta(items: seq<(string, real)>): (d: seq<(string, real)>)
    ensures OM.Keys(d) == Scales
  {
    seq(|Scales|, k requires 0 <= k < |Scales| => (Scales[k], MeanOrZero(ScaleValues(items, Scales[k]))))
  }

  datatype DeltaBundle = DeltaBundle(
    itemsA: seq<(string, real)>,
    itemsB: seq<(string, real)>,
    scalesA: seq<(string, real)>,
    scalesB: seq<(string, real)>)

  /** compute_deltas: A's guesses against B's self answers, and the reverse. */
  function ComputeDeltas(aSelf: map<string, int>, aGuess: map<string, int>, bSelf: map<string, int>, bGuess: map<string, int>): DeltaBundle {
    var itemsA := DeltaItems(AllCodes(), aGuess, bSelf);
    var itemsB := DeltaItems(AllCodes(), bGuess, aSelf);
    DeltaBundle(itemsA, itemsB, ScaleDelta(itemsA), ScaleDelta(itemsB))
  }

  lemma {:induction false} SumAtMost(xs: seq<real>, hi: real)
    requires forall k :: 0 <= k < |xs| ==> xs[k] <= hi
    ensures Scoring.Sum(xs) <= |xs| as real * hi
  {
    if |xs| > 0 {
      SumAtMost(xs[1..], hi);
    }
  }

  lemma MeanBetween(vs: seq<real>, hi: real)
    requires 0.0 <= hi && forall k :: 0 <= k < |vs| ==> 0.0 <= vs[k] <= hi
    ensures 0.0 <= MeanOrZero(vs) <= hi
  {
    if |vs| > 0 {
      SumBetween(vs, 0.0, hi);
      Scoring.DivBetween(Scoring.Sum(vs), |vs| as real, 0.0, hi);
    }
  }

  /** Each per-scale delta is a mean of absolute differences: never negative,
    * and at most the largest raw answer gap when all answers lie in 0..10. */
  lemma ScaleDeltaBounds(guess: map<string, int>, actual: map<string, int>, k: nat)
    requires k < |Scales|
    requires forall c :: c in guess ==> 0 <= guess[c] <= 10
    requires forall c :: c in actual ==> 0 <= actual[c] <= 10
    ensures 0.0 <= ScaleDelta(DeltaItems(AllCodes(), guess, actual))[k].1 <= 10.0
  {
    var items := DeltaItems(AllCodes(), guess, actual);
    var vs := ScaleValues(items, Scales[k]);
    forall j | 0 <= j < |vs| ensures 0.0 <= vs[j] <= 10.0 {
      assert vs[j] in vs;
    }
    MeanBetween(vs, 10.0);
  }

  /** Every item of a delta list belongs to QUESTION_TO_SCALE, so each value
    * lands in exactly one scale's average. */
  lemma DeltaItemsDistinct(guess: map<string, int>, actual: map<string, int>)
    ensures OM.DistinctKeys(DeltaItems(AllCodes(), guess, actual))
  {
    AllCodesDistinct();
    DeltaItemsOrdered(AllCodes(), guess, actual);
  }

  lemma {:induction false} DeltaItemsOrdered(codes: seq<string>, guess: map<string, int>, actual: map<string, int>)
    requires forall i, j :: 0 <= i < j < |codes| ==> codes[i] != codes[j]
    ensures OM.DistinctKeys(DeltaItems(codes, guess, actual))
  {
    if |codes| > 0 {
      var front := codes[..|codes| - 1];
      DeltaItemsOrdered(front, guess, actual);
      var d := DeltaItems(front, guess, actual);
      forall k | 0 <= k < |d| ensures d[k].0 != codes[|codes| - 1] {
        assert d[k].0 in front;
      }
    }
  }

  // === rank_top_delta_items =================================================

  function Max(a: real, b: real): real {
    if b > a then b else a
  }

  /** combined after both loops: A's deltas copied, then each of B's deltas
    * merged as max(combined.get(code, 0.0), value). */
  function CombinedOf(a: seq<(string, real)>, b: seq<(string, real)>): (c: seq<(string, real)>)
    requires OM.DistinctKeys(a)
    ensures OM.DistinctKeys(c)
  {
    if |b| == 0 then a
    else
      var c := CombinedOf(a, b[..|b| - 1]);
      var e := b[|b| - 1];
      OM.Put(c, e.0, Max(OM.Get(c, e.0, 0.0), e.1))
  }

  /** Sorting key of sorted(..., key=value, reverse=True). */
  const ByValueDesc: ((string, real), (string, real)) -> bool :=
    (x: (string, real), y: (string, real)) => x.1 >= y.1

  lemma ByValueDescTotal()
    ensures Sorting.TotalPreorder(ByValueDesc)
  {
  }

  /** The length of xs[:limit] under Python's slicing rules. */
  function SliceLength(n: nat, limit: int): (k: nat)
    ensures k <= n
  {
    if limit >= 0 then (if limit < n then limit else n)
    else if n + limit > 0 then n + limit else 0
  }

  /** [code for code, _ in ordered[:limit]]. */
  function TopCodes(ordered: seq<(string, real)>, limit: int): (r: seq<string>)
    ensures |r| == SliceLength(|ordered|, limit)
    ensures forall k :: 0 <= k < |r| ==> r[k] == ordered[k].0
  {
    var n := SliceLength(|ordered|, limit);
    seq(n, k requires 0 <= k < n => ordered[k].0)
  }

  /** rank_top_delta_items: fills combined in two loops, then returns the
    * codes of the limit largest combined deltas. */
  method RankTopDeltaItems(a: seq<(string, real)>, b: seq<(string, real)>, limit: int) returns (r: seq<string>)
    requires OM.DistinctKeys(a) && OM.DistinctKeys(b)
    ensures r == TopCodes(Sorting.Sort(CombinedOf(a, b), ByValueDesc), limit)
  {
    var combined: seq<(string, real)> := [];
    var i := 0;
    while i < |a|
      invariant 0 <= i <= |a| && combined == a[..i]
    {
      assert !OM.HasKey(combined, a[i].0);
      combined := OM.Put(combined, a[i].0, a[i].1);
      i := i + 1;
    }
    assert a[..i] == a;
    var j := 0;
    while j < |b|
      invariant 0 <= j <= |b| && combined == CombinedOf(a, b[..j])
    {
      assert b[..j + 1][..j] == b[..j];
      var code := b[j].0;
      combined := OM.Put(combined, code, Max(OM.Get(combined, code, 0.0), b[j].1));
      j := j + 1;
    }
    assert b[..j] == b;
    r := TopCodes(Sorting.Sort(combined, ByValueDesc), limit);
  }

  /** The combined value of a code: the larger of the two partners' deltas,
    * a missing delta counting as A's value or 0.0. Exactly the codes of
    * either partner are combined. */
  lemma {:induction false} CombinedValues(a: seq<(string, real)>, b: seq<(string, real)>, q: string)
    requires OM.DistinctKeys(a) && OM.DistinctKeys(b)
    ensures OM.HasKey(CombinedOf(a, b), q) <==> OM.HasKey(a, q) || OM.HasKey(b, q)
    ensures OM.Get(CombinedOf(a, b), q, 0.0) ==
      if OM.HasKey(b, q) then Max(OM.Get(a, q, 0.0), OM.Get(b, q, 0.0)) else OM.Get(a, q, 0.0)
  {
    if |b| > 0 {
      var front := b[..|b| - 1];
      var e := b[|b| - 1];
      assert b == front + [e];
      assert !OM.HasKey(front, e.0);
      CombinedValues(a, front, q);
      CombinedValues(a, front, e.0);
      var c := CombinedOf(a, front);
      OM.GetPut(c, e.0, Max(OM.Get(c, e.0, 0.0), e.1), q, 0.0);
      OM.GetSnoc(front, e.0, e.1, q, 0.0);
      OM.GetSnoc(front, e.0, e.1, e.0, 0.0);
    }
  }

  /** The ranked codes come from either partner, in non-increasing combined
    * delta, and there are min(limit, number of codes) of them. */
  lemma RankedByCombinedDelta(a: seq<(string, real)>, b: seq<(string, real)>, limit: int)
    requires OM.DistinctKeys(a) && OM.DistinctKeys(b)
    ensures var c := CombinedOf(a, b);
      var r := TopCodes(Sorting.Sort(c, ByValueDesc), limit);
      (limit >= 0 ==> |r| == if limit < |c| then limit else |c|) &&
      (forall k :: 0 <= k < |r| ==> OM.HasKey(a, r[k]) || OM.HasKey(b, r[k])) &&
      (forall i, j :: 0 <= i < j < |r| ==> OM.Get(c, r[i], 0.0) >= OM.Get(c, r[j], 0.0))
  {
    var c := CombinedOf(a, b);
    var sorted := Sorting.Sort(c, ByValueDesc);
    var r := TopCodes(sorted, limit);
    ByValueDescTotal();
    Sorting.SortCorrect(c, ByValueDesc);
    forall k | 0 <= k < |sorted| ensures OM.HasKey(c, sorted[k].0) && OM.Get(c, sorted[k].0, 0.0) == sorted[k].1 {
      assert sorted[k] in multiset(c);
      var p :| 0 <= p < |c| && c[p] == sorted[k];
      OM.GetAt(c, p, 0.0);
    }
    forall k | 0 <= k < |r| ensures OM.HasKey(a, r[k]) || OM.HasKey(b, r[k]) {
      CombinedValues(a, b, r[k]);
    }
  }

  // === flag_rules ===========================================================

  /** FLAG_SEVERITY. */
  datatype Severity = Info | Low | Mid | High

  /** A flag: its code and severity (the reason text is not modelled). */
  datatype Flag = Flag(code: string, severity: Severity)

  /** The flags flag_rules can raise, in the order it checks them. */
  const FlagOrder: seq<Flag> := [
    Flag("SAFETY", High), Flag("PURSUIT_WITHDRAW", Mid), Flag("COGNITIVE", Mid), Flag("PLANNING_GAP", Low)
  ]

  /** raw_self.get(code, default). */
  function GetOr(m: map<string, int>, code: string, default: int): int {
    if code in m then m[code] else default
  }

  /** The number of the given codes answered 3 or more (absent counts as 0). */
  function CountAtLeastThree(codes: seq<string>, raw: map<string, int>): (n: nat)
    ensures n <= |codes|
  {
    if |codes| == 0 then 0
    else (if GetOr(raw, codes[0], 0) >= 3 then 1 else 0) + CountAtLeastThree(codes[1..], raw)
  }

  predicate SafetyRule(raw: map<string, int>) {
    GetOr(raw, "CS2", 5) <= 2 || GetOr(raw, "IN4", 5) <= 2
  }

  predicate PursuitRule(raw: map<string, int>) {
    GetOr(raw, "PD1", 0) >= 3 && GetOr(raw, "PD3", 0) >= 3
  }

  predicate CognitiveRule(raw: map<string, int>) {
    CountAtLeastThree(["CB1", "CB2", "CB3", "CB4"], raw) >= 2
  }

  predicate PlanningRule(scales: seq<(string, real)>) {
    OM.Get(scales, "RP", 0.0) <= 1.6
  }

  /** The list flag_rules builds: each rule's flag, in checking order. */
  function FlagsOf(scales: seq<(string, real)>, raw: map<string, int>): seq<Flag> {
    Picked(SafetyRule(raw), PursuitRule(raw), CognitiveRule(raw), PlanningRule(scales))
  }

  /** add(): the flag appended when its rule holds. */
  function AddIf(flags: seq<Flag>, raised: bool, f: Flag): seq<Flag> {
    if raised then flags + [f] else flags
  }

  /** The flags of FlagOrder whose rule outcome is true, appended in order. */
  function Picked(b0: bool, b1: bool, b2: bool, b3: bool): seq<Flag> {
    AddIf(AddIf(AddIf(AddIf([], b0, FlagOrder[0]), b1, FlagOrder[1]), b2, FlagOrder[2]), b3, FlagOrder[3])
  }

  /** The four flags are distinct and FlagRank numbers them 0..3. */
  lemma FlagOrderRanks()
    ensures FlagRank(FlagOrder[0]) == 0 && FlagRank(FlagOrder[1]) == 1
    ensures FlagRank(FlagOrder[2]) == 2 && FlagRank(FlagOrder[3]) == 3
  {
    assert |FlagOrder[0].code| == 6 && |FlagOrder[1].code| == 16 && |FlagOrder[2].code| == 9;
  }

  /** Each flag is raised exactly when its rule holds, and nothing else is
    * raised. */
  lemma FlagsRaisedIff(scales: seq<(string, real)>, raw: map<string, int>)
    ensures FlagOrder[0] in FlagsOf(scales, raw) <==> SafetyRule(raw)
    ensures FlagOrder[1] in FlagsOf(scales, raw) <==> PursuitRule(raw)
    ensures FlagOrder[2] in FlagsOf(scales, raw) <==> CognitiveRule(raw)
    ensures FlagOrder[3] in FlagsOf(scales, raw) <==> PlanningRule(scales)
    ensures forall f :: f in FlagsOf(scales, raw) ==> f in FlagOrder
  {
    PickedMembers(SafetyRule(raw), PursuitRule(raw), CognitiveRule(raw), PlanningRule(scales));
  }

  /** The raised flags appear in the fixed checking order. */
  lemma FlagsOrdered(scales: seq<(string, real)>, raw: map<string, int>)
    ensures RanksIncrease(FlagsOf(scales, raw))
  {
    PickedOrdered(SafetyRule(raw), PursuitRule(raw), CognitiveRule(raw), PlanningRule(scales));
  }

  lemma AddIfMembers(flags: seq<Flag>, raised: bool, f: Flag)
    ensures forall g :: g in AddIf(flags, raised, f) <==> g in flags || (raised && g == f)
  {
  }

  lemma PickedMembers(b0: bool, b1: bool, b2: bool, b3: bool)
    ensures FlagOrder[0] in Picked(b0, b1, b2, b3) <==> b0
    ensures FlagOrder[1] in Picked(b0, b1, b2, b3) <==> b1
    ensures FlagOrder[2] in Picked(b0, b1, b2, b3) <==> b2
    ensures FlagOrder[3] in Picked(b0, b1, b2, b3) <==> b3
    ensures forall f :: f in Picked(b0, b1, b2, b3) ==> f in FlagOrder
  {
    FlagOrderRanks();
    var p1 := AddIf([], b0, FlagOrder[0]);
    var p2 := AddIf(p1, b1, FlagOrder[1]);
    var p3 := AddIf(p2, b2, FlagOrder[2]);
    AddIfMembers([], b0, FlagOrder[0]);
    AddIfMembers(p1, b1, FlagOrder[1]);
    AddIfMembers(p2, b2, FlagOrder[2]);
    AddIfMembers(p3, b3, FlagOrder[3]);
  }

  lemma PickedOrdered(b0: bool, b1: bool, b2: bool, b3: bool)
    ensures RanksIncrease(Picked(b0, b1, b2, b3))
  {
    FlagOrderRanks();
    var p1 := AddIf([], b0, FlagOrder[0]);
    var p2 := AddIf(p1, b1, FlagOrder[1]);
    var p3 := AddIf(p2, b2, FlagOrder[2]);
    RankedAppend([], b0, 0);
    RankedAppend(p1, b1, 1);
    RankedAppend(p2, b2, 2);
    RankedAppend(p3, b3, 3);
  }

  predicate RanksBelow(flags: seq<Flag>, n: nat) {
    forall k :: 0 <= k < |flags| ==> FlagRank(flags[k]) < n
  }

  /** Appending the flag of rank n, when raised, to flags ranked below n. */
  lemma RankedAppend(p: seq<Flag>, raised: bool, n: nat)
    requires n < 4 && FlagRank(FlagOrder[n]) == n
    requires RanksIncrease(p) && RanksBelow(p, n)
    ensures RanksIncrease(AddIf(p, raised, FlagOrder[n])) && RanksBelow(AddIf(p, raised, FlagOrder[n]), n + 1)
  {
    if raised {
      var q := p + [FlagOrder[n]];
      assert forall k :: 0 <= k < |p| ==> q[k] == p[k];
      assert q[|p|] == FlagOrder[n];
    }
  }

  predicate RanksIncrease(flags: seq<Flag>) {
    forall i, j :: 0 <= i < j < |flags| ==> FlagRank(flags[i]) < FlagRank(flags[j])
  }

  /** flag_rules: appends each rule's flag in checking order. */
  method FlagRules(scales: seq<(string, real)>, raw: map<string, int>) returns (flags: seq<Flag>)
    ensures flags == FlagsOf(scales, raw)
  {
    flags := [];
    if SafetyRule(raw) {
      flags := flags + [Flag("SAFETY", High)];
    }
    if PursuitRule(raw) {
      flags := flags + [Flag("PURSUIT_WITHDRAW", Mid)];
    }
    if CountAtLeastThree(["CB1", "CB2", "CB3", "CB4"], raw) >= 2 {
      flags := flags + [Flag("COGNITIVE", Mid)];
    }
    if OM.Get(scales, "RP", 0.0) <= 1.6 {
      flags := flags + [Flag("PLANNING_GAP", Low)];
    }
  }

  /** The position of a flag in FlagOrder (4 for any other flag). */
  function FlagRank(f: Flag): nat {
    if f == FlagOrder[0] then 0
    else if f == FlagOrder[1] then 1
    else if f == FlagOrder[2] then 2
    else if f == FlagOrder[3] then 3
    else 4
  }

  // === build_insights =======================================================

  /** An insight card: a safety card for a high-severity flag, or a scale
    * card with its combined delta (card text is not modelled). */
  datatype Card = FlagCard(code: string) | ScaleCard(scale: string, score: real)

  /** INSIGHT_LIBRARY has a card for every scale. */
  const InsightScales: set<string> := {"CS", "EA", "CB", "PD", "RP", "LF", "IN", "SF"}

  /** One card per high-severity flag, in flag order. */
  function FlagCards(flags: seq<Flag>): (cards: seq<Card>)
    ensures forall k :: 0 <= k < |cards| ==> cards[k].FlagCard?
    ensures forall k :: 0 <= k < |cards| ==> Flag(cards[k].code, High) in flags
  {
    if |flags| == 0 then []
    else
      var front := FlagCards(flags[..|flags| - 1]);
      assert forall f :: f in flags[..|flags| - 1] ==> f in flags;
      var f := flags[|flags| - 1];
      if f.severity == High then front + [FlagCard(f.code)] else front
  }

  /** max(delta_scales_a.get(scale, 0.0), delta_scales_b.get(scale, 0.0)) per scale. */
  function CombinedScales(a: seq<(string, real)>, b: seq<(string, real)>): (c: seq<(string, real)>)
    ensures |c| == |Scales|
    ensures forall k :: 0 <= k < |c| ==> c[k] == (Scales[k], Max(OM.Get(a, Scales[k], 0.0), OM.Get(b, Scales[k], 0.0)))
  {
    seq(|Scales|, k requires 0 <= k < |Scales| => (Scales[k], Max(OM.Get(a, Scales[k], 0.0), OM.Get(b, Scales[k], 0.0))))
  }

  /** A scale card for each ordered entry that has a library card. */
  function ScaleCards(ordered: seq<(string, real)>): (cards: seq<Card>)
    ensures |cards| <= |ordered|
    ensures forall k :: 0 <= k < |cards| ==> cards[k].ScaleCard? && (cards[k].scale, cards[k].score) in ordered
  {
    if |ordered| == 0 then []
    else
      var front := ScaleCards(ordered[..|ordered| - 1]);
      assert forall e :: e in ordered[..|ordered| - 1] ==> e in ordered;
      var e := ordered[|ordered| - 1];
      if e.0 in InsightScales then front + [ScaleCard(e.0, e.1)] else front
  }

  /** ordered[:3]. */
  function FirstThree(cards: seq<Card>): seq<Card> {
    if |cards| <= 3 then cards else cards[..3]
  }

  /** build_insights: the safety cards first, then the scale cards by
    * non-increasing combined delta, at most three in all. */
  method BuildInsights(a: seq<(string, real)>, b: seq<(string, real)>, flags: seq<Flag>) returns (cards: seq<Card>)
    ensures cards == FirstThree(FlagCards(flags) + ScaleCards(Sorting.Sort(CombinedScales(a, b), ByValueDesc)))
  {
    var ordered: seq<Card> := [];
    var i := 0;
    while i < |flags|
      invariant 0 <= i <= |flags| && ordered == FlagCards(flags[..i])
    {
      assert flags[..i + 1][..i] == flags[..i];
      if flags[i].severity == High {
        ordered := ordered + [FlagCard(flags[i].code)];
      }
      i := i + 1;
    }
    assert flags[..i] == flags;
    var combined: seq<(string, real)> := [];
    var k := 0;
    while k < |Scales|
      invariant 0 <= k <= |Scales| && |combined| == k
      invariant forall p :: 0 <= p < k ==> combined[p] == CombinedScales(a, b)[p]
    {
      combined := combined + [(Scales[k], Max(OM.Get(a, Scales[k], 0.0), OM.Get(b, Scales[k], 0.0)))];
      k := k + 1;
    }
    assert combined == CombinedScales(a, b);
    var scaleOrder := Sorting.Sort(combined, ByValueDesc);
    var scaleCards := ScaleCardsLoop(scaleOrder);
    ordered := ordered + scaleCards;
    cards := FirstThree(ordered);
  }

  /** The scale-card loop of build_insights, skipping scales without a card. */
  method ScaleCardsLoop(scaleOrder: seq<(string, real)>) returns (cards: seq<Card>)
    ensures cards == ScaleCards(scaleOrder)
  {
    cards := [];
    var j := 0;
    while j < |scaleOrder|
      invariant 0 <= j <= |scaleOrder| && cards == ScaleCards(scaleOrder[..j])
    {
      assert scaleOrder[..j + 1][..j] == scaleOrder[..j];
      var entry := scaleOrder[j];
      if entry.0 in InsightScales {
        cards := cards + [ScaleCard(entry.0, entry.1)];
      }
      j := j + 1;
    }
    assert scaleOrder[..j] == scaleOrder;
  }

  lemma {:induction false} ScaleCardsOrdered(ordered: seq<(string, real)>)
    requires Sorting.SortedBy(ordered, ByValueDesc)
    ensures forall i, j :: 0 <= i < j < |ScaleCards(ordered)| ==> ScaleCards(ordered)[i].score >= ScaleCards(ordered)[j].score
  {
    if |ordered| > 0 {
      var front := ordered[..|ordered| - 1];
      ScaleCardsOrdered(front);
      var cs := ScaleCards(front);
      forall k | 0 <= k < |cs| ensures cs[k].score >= ordered[|ordered| - 1].1 {
        var e := (cs[k].scale, cs[k].score);
        assert e in front;
        var p :| 0 <= p < |front| && front[p] == e;
        assert ByValueDesc(ordered[p], ordered[|ordered| - 1]);
      }
    }
  }

  /** Every scale has a library card, so each scale is carded. */
  lemma {:induction false} ScaleCardsKeepAll(ordered: seq<(string, real)>)
    requires forall k :: 0 <= k < |ordered| ==> ordered[k].0 in Scales
    ensures |ScaleCards(ordered)| == |ordered|
  {
    if |ordered| > 0 {
      ScaleCardsKeepAll(ordered[..|ordered| - 1]);
    }
  }

  /** The cards build_insights chooses from, before the cut to three. */
  function InsightCandidates(a: seq<(string, real)>, b: seq<(string, real)>, flags: seq<Flag>): seq<Card> {
    FlagCards(flags) + ScaleCards(Sorting.Sort(CombinedScales(a, b), ByValueDesc))
  }

  /** The sorted scale entries are the combined per-scale deltas, ordered. */
  lemma SortedScales(a: seq<(string, real)>, b: seq<(string, real)>)
    ensures var sorted := Sorting.Sort(CombinedScales(a, b), ByValueDesc);
      Sorting.SortedBy(sorted, ByValueDesc) &&
      forall k :: 0 <= k < |sorted| ==> sorted[k] in CombinedScales(a, b)
  {
    var c := CombinedScales(a, b);
    var sorted := Sorting.Sort(c, ByValueDesc);
    ByValueDescTotal();
    Sorting.SortCorrect(c, ByValueDesc);
    forall k | 0 <= k < |sorted| ensures sorted[k] in c {
      assert sorted[k] in multiset(c);
    }
  }

  /** Cutting flag cards followed by ordered scale cards to three keeps
    * both orders. */
  lemma CutKeepsOrder(fc: seq<Card>, sc: seq<Card>)
    requires forall k :: 0 <= k < |fc| ==> fc[k].FlagCard?
    requires forall k :: 0 <= k < |sc| ==> sc[k].ScaleCard?
    requires forall i, j :: 0 <= i < j < |sc| ==> sc[i].score >= sc[j].score
    ensures var cards := FirstThree(fc + sc);
      |cards| <= 3 &&
      (forall i, j :: 0 <= i < j < |cards| && cards[j].FlagCard? ==> cards[i].FlagCard?) &&
      (forall i, j :: 0 <= i < j < |cards| && cards[i].ScaleCard? && cards[j].ScaleCard? ==> cards[i].score >= cards[j].score)
  {
    var all := fc + sc;
    assert forall k :: 0 <= k < |all| ==> (all[k].FlagCard? <==> k < |fc|);
    forall i, j | |fc| <= i < j < |all| ensures all[i].score >= all[j].score {
      assert all[i] == sc[i - |fc|] && all[j] == sc[j - |fc|];
    }
  }

  /** Safety cards come before scale cards, and scale cards are in
    * non-increasing delta order. */
  lemma InsightsOrdered(a: seq<(string, real)>, b: seq<(string, real)>, flags: seq<Flag>)
    ensures var cards := FirstThree(InsightCandidates(a, b, flags));
      |cards| <= 3 &&
      (forall i, j :: 0 <= i < j < |cards| && cards[j].FlagCard? ==> cards[i].FlagCard?) &&
      (forall i, j :: 0 <= i < j < |cards| && cards[i].ScaleCard? && cards[j].ScaleCard? ==> cards[i].score >= cards[j].score)
  {
    SortedScales(a, b);
    var sorted := Sorting.Sort(CombinedScales(a, b), ByValueDesc);
    ScaleCardsOrdered(sorted);
    CutKeepsOrder(FlagCards(flags), ScaleCards(sorted));
  }

  /** Each scale card carries the larger partner delta of its scale. */
  lemma InsightScoresAreMaxDeltas(a: seq<(string, real)>, b: seq<(string, real)>, flags: seq<Flag>, k: nat)
    requires var cards := FirstThree(InsightCandidates(a, b, flags)); k < |cards| && cards[k].ScaleCard?
    ensures var card := FirstThree(InsightCandidates(a, b, flags))[k];
      exists s :: 0 <= s < |Scales| && card.scale == Scales[s] &&
        card.score == Max(OM.Get(a, Scales[s], 0.0), OM.Get(b, Scales[s], 0.0))
  {
    SortedScales(a, b);
    var sorted := Sorting.Sort(CombinedScales(a, b), ByValueDesc);
    var card := FirstThree(InsightCandidates(a, b, flags))[k];
    var fc := FlagCards(flags);
    var sc := ScaleCards(sorted);
    assert card == (fc + sc)[k];
    assert card in sc;
    var e := (card.scale, card.score);
    assert e in sorted;
    var p :| 0 <= p < |sorted| && sorted[p] == e;
    assert e in CombinedScales(a, b);
  }

  /** With no high-severity flag the insights are three scale cards. */
  lemma InsightsWithoutSafetyFlags(a: seq<(string, real)>, b: seq<(string, real)>, flags: seq<Flag>)
    requires forall f :: f in flags ==> f.severity != High
    ensures var cards := FirstThree(InsightCandidates(a, b, flags));
      |cards| == 3 && forall k :: 0 <= k < 3 ==> cards[k].ScaleCard?
  {
    SortedScales(a, b);
    var sorted := Sorting.Sort(CombinedScales(a, b), ByValueDesc);
    forall k | 0 <= k < |sorted| ensures sorted[k].0 in Scales {
      assert sorted[k] in CombinedScales(a, b);
    }
    ScaleCardsKeepAll(sorted);
    NoHighNoFlagCards(flags);
  }

  lemma {:induction false} NoHighNoFlagCards(flags: seq<Flag>)
    requires forall f :: f in flags ==> f.severity != High
    ensures FlagCards(flags) == []
  {
    if |flags| > 0 {
      NoHighNoFlagCards(flags[..|flags| - 1]);
    }
  }

  // === gap_grade / summarize_gap ============================================

  datatype Grade = Green | Amber | Red

  /** gap_grade: green below 0.8, amber below 1.6, red from 1.6 on. */
  function GapGrade(delta: real): (g: Grade)
    ensures g == Green <==> delta < 0.8
    ensures g == Red <==> delta >= 1.6
  {
    if delta < 0.8 then Green else if delta < 1.6 then Amber else Red
  }

  function GradeRank(g: Grade): nat {
    match g
    case Green => 0
    case Amber => 1
    case Red => 2
  }

  /** A larger delta never earns a milder grade. */
  lemma GapGradeMonotone(d1: real, d2: real)
    requires d1 <= d2
    ensures GradeRank(GapGrade(d1)) <= GradeRank(GapGrade(d2))
  {
  }

  /** The position of the first maximum, as max(..., key=...) picks it. */
  function FirstMaxIndex(xs: seq<real>): (k: nat)
    requires |xs| > 0
    ensures k < |xs|
    ensures forall i :: 0 <= i < |xs| ==> xs[i] <= xs[k]
    ensures forall i :: 0 <= i < k ==> xs[i] < xs[k]
  {
    if |xs| == 1 then 0
    else
      var k := FirstMaxIndex(xs[..|xs| - 1]);
      if xs[|xs| - 1] > xs[k] then |xs| - 1 else k
  }

  datatype GapSummary = GapSummary(meanDelta: real, topScale: Option<string>, topDelta: real, grade: Grade)

  /** The larger partner delta of each scale, in SCALES order. */
  function MergedDeltas(a: seq<(string, real)>, b: seq<(string, real)>): (m: seq<real>)
    ensures |m| == |Scales|
    ensures forall k :: 0 <= k < |m| ==> m[k] == Max(OM.Get(a, Scales[k], 0.0), OM.Get(b, Scales[k], 0.0))
  {
    seq(|Scales|, k requires 0 <= k < |Scales| => Max(OM.Get(a, Scales[k], 0.0), OM.Get(b, Scales[k], 0.0)))
  }

  /** summarize_gap: the mean merged delta, the first scale with the largest
    * merged delta, and the grade of the mean. */
  function SummarizeGap(a: seq<(string, real)>, b: seq<(string, real)>): (s: GapSummary)
    ensures var m := MergedDeltas(a, b);
      s.meanDelta == Scoring.Sum(m) / 8.0 &&
      s.topScale.Some? &&
      (exists k :: 0 <= k < |Scales| && s.topScale.value == Scales[k] && s.topDelta == m[k] &&
        forall i :: 0 <= i < k ==> m[i] < s.topDelta) &&
      (forall i :: 0 <= i < |m| ==> m[i] <= s.topDelta) &&
      s.grade == GapGrade(s.meanDelta)
  {
    var merged := MergedDeltas(a, b);
    var k := FirstMaxIndex(merged);
    var mean := Scoring.Sum(merged) / |merged| as real;
    GapSummary(mean, Some(Scales[k]), merged[k], GapGrade(mean))
  }

  /** The mean delta never exceeds the top delta, so a red mean implies a
    * red top scale. */
  lemma MeanAtMostTop(a: seq<(string, real)>, b: seq<(string, real)>)
    ensures SummarizeGap(a, b).meanDelta <= SummarizeGap(a, b).topDelta
  {
    var m := MergedDeltas(a, b);
    var s := SummarizeGap(a, b);
    SumAtMost(m, s.topDelta);
  }
}
