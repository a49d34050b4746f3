// calculate_mbti_score (test_mbti.py): the stand-alone copy of the friend
// router's scorer. Answers arrive as strings keyed by the question id
// printed as a string; every question of MBTI_QUESTIONS is looked up in turn.
module MbtiScript {
  import opened Wrappers
  import opened Schemas
  import opened LegacyMbti
  import Text

  /** int(responses[key]) raised ValueError: the answer under key is not an
    * integer. */
  datatype ScriptError = ValueError(key: string)

  /** The key a question is looked up by: str(question["id"]). */
  function KeyOf(q: LegacyQuestion): string {
    Text.IntToString(q.id)
  }

  /** The question is answered but its answer does not parse; parse is
    * int() on a string (Text.ParseInt in the scorer itself). */
  predicate Unparsable(q: LegacyQuestion, responses: map<string, string>, parse: string -> Option<int>) {
    KeyOf(q) in responses && parse(responses[KeyOf(q)]).None?
  }

  /** raw_scores after the questions qs have been visited in order; the
    * first unparsable answer ends the run. */
  function RawAfter(qs: seq<LegacyQuestion>, responses: map<string, string>, parse: string -> Option<int>): Result<PerDim<int>, ScriptError>
  {
    if |qs| == 0 then Ok(Uniform(0)) else
    var front := RawAfter(qs[..|qs| - 1], responses, parse);
    var q := qs[|qs| - 1];
    if front.Err? || KeyOf(q) !in responses then front
    else match parse(responses[KeyOf(q)])
      case None => Err(ValueError(KeyOf(q)))
      case Some(v) => Ok(front.value.Set(q.axis, front.value.Get(q.axis) + Contribution(q, v)))
  }

  /** What calculate_mbti_score returns (or the ValueError it raises). */
  function ScoreOf(responses: map<string, string>): Result<LegacyResult, ScriptError> {
    var raw := RawAfter(MbtiQuestions, responses, Text.ParseInt);
    if raw.Err? then Err(raw.error) else Ok(ResultOf(raw.value))
  }

  /** Once an answer has failed to parse, later questions do not matter. */
  lemma {:induction false} ErrorSticks(qs: seq<LegacyQuestion>, n: nat, responses: map<string, string>, parse: string -> Option<int>)
    requires n <= |qs| && RawAfter(qs[..n], responses, parse).Err?
    ensures RawAfter(qs, responses, parse) == RawAfter(qs[..n], responses, parse)
    decreases |qs|
  {
    if n < |qs| {
      var front := qs[..|qs| - 1];
      assert front[..n] == qs[..n];
      ErrorSticks(front, n, responses, parse);
    } else {
      assert qs[..n] == qs;
    }
  }

  /** The scoring loop of calculate_mbti_score over a question list:
    * accumulate sign * (value - 3) on each answered question's axis. */
  method AccumulateRaw(qs: seq<LegacyQuestion>, responses: map<string, string>, parse: string -> Option<int>)
    returns (r: Result<PerDim<int>, ScriptError>)
    ensures r == RawAfter(qs, responses, parse)
  {
    var raw := Uniform(0);
    var i := 0;
    while i < |qs|
      invariant 0 <= i <= |qs|
      invariant RawAfter(qs[..i], responses, parse) == Ok(raw)
    {
      var q := qs[i];
      assert qs[..i + 1][..i] == qs[..i] && qs[..i + 1][i] == q;
      var key := KeyOf(q);
      if key in responses {
        var value := parse(responses[key]);
        if value.None? {
          ErrorSticks(qs, i + 1, responses, parse);
          return Err(ValueError(key));
        }
        raw := raw.Set(q.axis, raw.Get(q.axis) + Contribution(q, value.value));
      }
      i := i + 1;
    }
    assert qs[..i] == qs;
    r := Ok(raw);
  }

  /** calculate_mbti_score: the raw scores over MBTI_QUESTIONS, then the
    * percentages and letters derived from them. */
  method CalculateMbtiScore(responses: map<string, string>) returns (r: Result<LegacyResult, ScriptError>)
    ensures r == ScoreOf(responses)
  {
    var raw := AccumulateRaw(MbtiQuestions, responses, Text.ParseInt);
    if raw.Err? {
      return Err(raw.error);
    }
    r := Ok(ResultOf(raw.value));
  }

  /** The reference reading of raw_scores[axis]: the sum of sign * (value - 3)
    * over the answered questions of that axis. */
  function AxisSum(qs: seq<LegacyQuestion>, responses: map<string, string>, parse: string -> Option<int>, d: Dim): int {
    if |qs| == 0 then 0 else
    var q := qs[|qs| - 1];
    var value := if KeyOf(q) in responses then parse(responses[KeyOf(q)]) else None;
    AxisSum(qs[..|qs| - 1], responses, parse, d) + (if q.axis == d && value.Some? then Contribution(q, value.value) else 0)
  }

  /** The scorer fails exactly when some answered question does not parse;
    * otherwise every axis holds the sum over its answered questions. */
  lemma {:induction false} RawIsAxisSum(qs: seq<LegacyQuestion>, responses: map<string, string>, parse: string -> Option<int>)
    ensures RawAfter(qs, responses, parse).Err? <==> exists i :: 0 <= i < |qs| && Unparsable(qs[i], responses, parse)
    ensures RawAfter(qs, responses, parse).Ok? ==>
      forall d :: RawAfter(qs, responses, parse).value.Get(d) == AxisSum(qs, responses, parse, d)
  {
    if |qs| > 0 {
      var front := qs[..|qs| - 1];
      RawIsAxisSum(front, responses, parse);
      assert forall i :: 0 <= i < |front| ==> front[i] == qs[i];
      if exists i :: 0 <= i < |qs| && Unparsable(qs[i], responses, parse) {
        var i :| 0 <= i < |qs| && Unparsable(qs[i], responses, parse);
        if i < |front| {
          assert Unparsable(front[i], responses, parse);
        }
      }
    }
  }

  /** A key that is no question's printed id is never read. */
  lemma {:induction false} ForeignKeyIgnored(qs: seq<LegacyQuestion>, responses: map<string, string>, parse: string -> Option<int>,
                                             k: string, v: string)
    requires forall i :: 0 <= i < |qs| ==> KeyOf(qs[i]) != k
    ensures RawAfter(qs, responses[k := v], parse) == RawAfter(qs, responses, parse)
  {
    if |qs| > 0 {
      var front := qs[..|qs| - 1];
      ForeignKeyIgnored(front, responses, parse, k, v);
      var key := KeyOf(qs[|qs| - 1]);
      assert key != k;
      assert (key in responses[k := v]) == (key in responses);
      assert key in responses ==> responses[k := v][key] == responses[key];
    }
  }

  /** Answers that all read as 3 leave every raw score at zero. */
  lemma {:induction false} NeutralRaw(qs: seq<LegacyQuestion>, responses: map<string, string>, parse: string -> Option<int>)
    requires forall i :: 0 <= i < |qs| ==> KeyOf(qs[i]) in responses && parse(responses[KeyOf(qs[i])]) == Some(3)
    ensures RawAfter(qs, responses, parse) == Ok(Uniform(0))
  {
    if |qs| > 0 {
      NeutralRaw(qs[..|qs| - 1], responses, parse);
      var q := qs[|qs| - 1];
      assert Contribution(q, 3) == 0;
    }
  }

  /** "3" reads as 3. */
  lemma ParseThree()
    ensures Text.ParseInt("3") == Some(3)
  {
    Text.ParseIntToString(3);
    assert Text.IntToString(3) == "3";
  }

  /** All-zero raw scores make 50/50 on every axis and the type INFP. */
  lemma NeutralResult()
    ensures ResultOf(Uniform(0)) == LegacyResult("INFP", Uniform(PoleScores(50, 50)), Uniform(0))
  {
    assert TypeOf(Uniform(0)) == "INFP";
  }

  /** The all-neutral run: every question answered "3" scores 50/50 on every
    * axis and, ties going to the second pole, the type INFP. */
  lemma Neutral(responses: map<string, string>)
    requires forall i :: 0 <= i < |MbtiQuestions| ==>
      KeyOf(MbtiQuestions[i]) in responses && responses[KeyOf(MbtiQuestions[i])] == "3"
    ensures ScoreOf(responses) == Ok(LegacyResult("INFP", Uniform(PoleScores(50, 50)), Uniform(0)))
  {
    ParseThree();
    NeutralRaw(MbtiQuestions, responses, Text.ParseInt);
    NeutralResult();
  }
}
