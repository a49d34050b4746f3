// The friend-evaluation and self-test result handlers of the legacy MBTI
// router (app/routers/mbti.py: mbti_result and self_mbti_result): read the
// q<id> fields of the submitted form, accumulate the raw axis scores over
// MBTI_QUESTIONS and, for a friend evaluation, save the result.
module MbtiRouter {
  import opened Wrappers
  import opened Schemas
  import opened LegacyMbti
  import OM = OrderedMaps
  import Text
  import DB = FriendDatabase

  /** The ValueError a form field raises: int(key[1:]) or int(value) failed. */
  datatype RouterError = BadQuestionKey(key: string) | BadAnswer(key: string)

  /** key.startswith("q"). */
  predicate IsAnswerKey(key: string) {
    |key| > 0 && key[0] == 'q'
  }

  /** next((q for q in MBTI_QUESTIONS if q["id"] == id), None). */
  function FindQuestion(qs: seq<LegacyQuestion>, id: int): (r: Option<LegacyQuestion>)
    ensures r.Some? ==> r.value in qs && r.value.id == id
    ensures r.None? <==> forall i :: 0 <= i < |qs| ==> qs[i].id != id
  {
    if |qs| == 0 then None
    else if qs[0].id == id then Some(qs[0])
    else
      var r := FindQuestion(qs[1..], id);
      assert forall i :: 1 <= i < |qs| ==> qs[i] == qs[1..][i - 1];
      r
  }

  /** The raw scores and the parsed responses dict built from the form. */
  datatype FormScores = FormScores(raw: PerDim<int>, responses: map<int, int>)

  /** One form field applied to the scores so far; parse is int() on a
    * string (Text.ParseInt in the handlers). */
  function ApplyField(s: FormScores, field: (string, string), qs: seq<LegacyQuestion>,
                      parse: string -> Option<int>): Result<FormScores, RouterError>
  {
    var (key, value) := field;
    if !IsAnswerKey(key) then Ok(s)
    else match parse(key[1..])
      case None => Err(BadQuestionKey(key))
      case Some(id) =>
        match parse(value)
        case None => Err(BadAnswer(key))
        case Some(v) =>
          var responses := s.responses[id := v];
          match FindQuestion(qs, id)
          case None => Ok(FormScores(s.raw, responses))
          case Some(q) => Ok(FormScores(s.raw.Set(q.axis, s.raw.Get(q.axis) + Contribution(q, v)), responses))
  }

  /** The scores after the form fields have been read in order; the first
    * field that raises ends the request. */
  function ScanForm(fields: seq<(string, string)>, qs: seq<LegacyQuestion>,
                    parse: string -> Option<int>): Result<FormScores, RouterError>
  {
    if |fields| == 0 then Ok(FormScores(Uniform(0), map[])) else
    var front := ScanForm(fields[..|fields| - 1], qs, parse);
    if front.Err? then front else ApplyField(front.value, fields[|fields| - 1], qs, parse)
  }

  /** The type, scores and raw scores a form yields (or the error it raises). */
  function FormResultOf(fields: seq<(string, string)>): Result<(LegacyResult, map<int, int>), RouterError> {
    var s := ScanForm(fields, MbtiQuestions, Text.ParseInt);
    if s.Err? then Err(s.error) else Ok((ResultOf(s.value.raw), s.value.responses))
  }

  /** The scoring loop shared by both handlers. */
  method ScoreForm(fields: seq<(string, string)>, qs: seq<LegacyQuestion>, parse: string -> Option<int>)
    returns (r: Result<FormScores, RouterError>)
    ensures r == ScanForm(fields, qs, parse)
  {
    var raw := Uniform(0);
    var responses: map<int, int> := map[];
    var i := 0;
    while i < |fields|
      invariant 0 <= i <= |fields|
      invariant ScanForm(fields[..i], qs, parse) == Ok(FormScores(raw, responses))
    {
      var (key, value) := fields[i];
      assert fields[..i + 1][..i] == fields[..i] && fields[..i + 1][i] == (key, value);
      if |key| > 0 && key[0] == 'q' {
        var id := parse(key[1..]);
        if id.None? {
          ErrorSticks(fields, i + 1, qs, parse);
          return Err(BadQuestionKey(key));
        }
        var v := parse(value);
        if v.None? {
          ErrorSticks(fields, i + 1, qs, parse);
          return Err(BadAnswer(key));
        }
        responses := responses[id.value := v.value];
        var question := FindQuestion(qs, id.value);
        if question.Some? {
          var q := question.value;
          raw := raw.Set(q.axis, raw.Get(q.axis) + q.sign * (v.value - 3));
        }
      }
      i := i + 1;
    }
    assert fields[..i] == fields;
    r := Ok(FormScores(raw, responses));
  }

  /** Once a field has raised, later fields do not matter. */
  lemma {:induction false} ErrorSticks(fields: seq<(string, string)>, n: nat, qs: seq<LegacyQuestion>,
                                       parse: string -> Option<int>)
    requires n <= |fields| && ScanForm(fields[..n], qs, parse).Err?
    ensures ScanForm(fields, qs, parse) == ScanForm(fields[..n], qs, parse)
    decreases |fields|
  {
    if n < |fields| {
      var front := fields[..|fields| - 1];
      assert front[..n] == fields[..n];
      ErrorSticks(front, n, qs, parse);
    } else {
      assert fields[..n] == fields;
    }
  }

  /** The score dict: each pole's percentage under its letter. */
  function ScoresDict(s: PerDim<PoleScores>): map<string, int> {
    map["E" := s.ei.first, "I" := s.ei.second, "S" := s.sn.first, "N" := s.sn.second,
        "T" := s.tf.first, "F" := s.tf.second, "J" := s.jp.first, "P" := s.jp.second]
  }

  /** The raw_scores dict keyed by axis name. */
  function RawDict(raw: PerDim<int>): map<string, int> {
    map["E-I" := raw.ei, "S-N" := raw.sn, "T-F" := raw.tf, "J-P" := raw.jp]
  }

  /** form_data.get(name, ""). */
  function FormGet(fields: seq<(string, string)>, name: string): string {
    OM.Get(fields, name, "")
  }

  /** The evaluation_data dict the friend handler saves (created_at is
    * stamped by the store). */
  function EvaluationOf(fields: seq<(string, string)>, result: LegacyResult, responses: map<int, int>): DB.Evaluation {
    DB.Evaluation(FormGet(fields, "friend_email"), FormGet(fields, "evaluator_name"), responses,
                  Some(result.mbtiType), ScoresDict(result.scores), RawDict(result.raw), "")
  }

  /** mbti_result: score the form; when friend_email is non-empty, save the
    * evaluation under it, stamped with now. */
  method MbtiResult(db: DB.Database, fields: seq<(string, string)>, now: string)
    returns (r: Result<LegacyResult, RouterError>)
    modifies db`evaluations
    ensures FormResultOf(fields).Err? ==> r == Err(FormResultOf(fields).error)
    ensures FormResultOf(fields).Ok? ==> r == Ok(FormResultOf(fields).value.0)
    ensures r.Ok? && FormGet(fields, "friend_email") != "" ==>
      db.evaluations == DB.WithEvaluation(old(db.evaluations), FormGet(fields, "friend_email"),
        EvaluationOf(fields, r.value, FormResultOf(fields).value.1).(createdAt := now))
    ensures r.Err? || FormGet(fields, "friend_email") == "" ==> db.evaluations == old(db.evaluations)
  {
    var friendEmail := FormGet(fields, "friend_email");
    var scanned := ScoreForm(fields, MbtiQuestions, Text.ParseInt);
    if scanned.Err? {
      return Err(scanned.error);
    }
    var result := ResultOf(scanned.value.raw);
    if friendEmail != "" {
      db.SaveEvaluation(friendEmail, EvaluationOf(fields, result, scanned.value.responses), now);
    }
    r := Ok(result);
  }

  /** self_mbti_result: the same scoring, nothing saved. */
  method SelfMbtiResult(fields: seq<(string, string)>) returns (r: Result<LegacyResult, RouterError>)
    ensures FormResultOf(fields).Err? ==> r == Err(FormResultOf(fields).error)
    ensures FormResultOf(fields).Ok? ==> r == Ok(FormResultOf(fields).value.0)
  {
    var scanned := ScoreForm(fields, MbtiQuestions, Text.ParseInt);
    if scanned.Err? {
      return Err(scanned.error);
    }
    r := Ok(ResultOf(scanned.value.raw));
  }

  /** The field raises ValueError: a q-key whose id or value is not an int. */
  predicate Raises(field: (string, string), parse: string -> Option<int>) {
    IsAnswerKey(field.0) && (parse(field.0[1..]).None? || parse(field.1).None?)
  }

  /** What one field adds to axis d: sign * (value - 3) when it answers a
    * question of that axis, nothing otherwise. */
  function FieldContribution(field: (string, string), qs: seq<LegacyQuestion>, parse: string -> Option<int>, d: Dim): int {
    if !IsAnswerKey(field.0) || Raises(field, parse) then 0 else
    var q := FindQuestion(qs, parse(field.0[1..]).value);
    if q.Some? && q.value.axis == d then Contribution(q.value, parse(field.1).value) else 0
  }

  /** The reference reading of raw_scores[axis]: the sum over the fields. */
  function FormAxisSum(fields: seq<(string, string)>, qs: seq<LegacyQuestion>, parse: string -> Option<int>, d: Dim): int {
    if |fields| == 0 then 0
    else FormAxisSum(fields[..|fields| - 1], qs, parse, d) + FieldContribution(fields[|fields| - 1], qs, parse, d)
  }

  /** The form fails exactly when some field raises; otherwise every axis
    * holds the sum of sign * (value - 3) over the fields answering its
    * questions. */
  lemma {:induction false} ScanIsAxisSum(fields: seq<(string, string)>, qs: seq<LegacyQuestion>, parse: string -> Option<int>)
    ensures ScanForm(fields, qs, parse).Err? <==> exists i :: 0 <= i < |fields| && Raises(fields[i], parse)
    ensures ScanForm(fields, qs, parse).Ok? ==>
      forall d :: ScanForm(fields, qs, parse).value.raw.Get(d) == FormAxisSum(fields, qs, parse, d)
  {
    if |fields| > 0 {
      var front := fields[..|fields| - 1];
      ScanIsAxisSum(front, qs, parse);
      assert forall i :: 0 <= i < |front| ==> front[i] == fields[i];
      if exists i :: 0 <= i < |fields| && Raises(fields[i], parse) {
        var i :| 0 <= i < |fields| && Raises(fields[i], parse);
        if i < |front| {
          assert Raises(front[i], parse);
        }
      }
    }
  }

  /** A field the scorer reads without effect on the raw scores: a key not
    * starting with "q", or a q-key whose id and value parse but whose id is
    * no question's. */
  predicate Inert(field: (string, string), qs: seq<LegacyQuestion>, parse: string -> Option<int>) {
    !IsAnswerKey(field.0) ||
    (parse(field.0[1..]).Some? && parse(field.1).Some? && FindQuestion(qs, parse(field.0[1..]).value).None?)
  }

  /** Inserting an inert field anywhere in the form leaves the outcome and
    * the raw scores as they were. */
  lemma {:induction false} InertFieldIgnored(before: seq<(string, string)>, field: (string, string),
                                             after: seq<(string, string)>, qs: seq<LegacyQuestion>,
                                             parse: string -> Option<int>)
    requires Inert(field, qs, parse)
    ensures var with := ScanForm(before + [field] + after, qs, parse);
      var without := ScanForm(before + after, qs, parse);
      with.Ok? == without.Ok? && (with.Ok? ==> with.value.raw == without.value.raw)
    decreases |after|
  {
    if |after| == 0 {
      assert before + [field] + after == before + [field];
      assert (before + [field])[..|before|] == before;
      assert before + after == before;
    } else {
      var front := after[..|after| - 1];
      InertFieldIgnored(before, field, front, qs, parse);
      var w := before + [field] + after;
      var wo := before + after;
      assert w[..|w| - 1] == before + [field] + front && w[|w| - 1] == after[|after| - 1];
      assert wo[..|wo| - 1] == before + front && wo[|wo| - 1] == after[|after| - 1];
    }
  }
}
