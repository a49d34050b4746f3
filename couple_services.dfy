// The couple session service (app/couple/services.py): a session moves
// through stages 1 -> 2 -> 3 and never back; a submission is checked in full
// before the stored answers of its participant are replaced; completion flags
// follow from answer counts; every audit event chains the previous event's
// hash; compute_result is gated on all four completion flags.
// Database rows become the fields of a Session object; SHA-256, JSON
// serialisation and the clock are parameters.
module CoupleService {
  import opened Wrappers
  import Sorting
  import OM = OrderedMaps
  import CS = CoupleScoring

  datatype Role = A | B

  /** StageOneSnapshot: k >= 0, visible defaults to False. */
  datatype StageOneSnapshot = StageOneSnapshot(k: nat, visible: bool)

  /** One element of self_answers / guess_answers. */
  datatype AnswerPayload = AnswerPayload(code: string, value: int)

  /** The problem-details errors the service raises; ScoringFailed is the
    * ScoringError that compute_scale_means lets escape. */
  datatype CoupleError =
    | ParticipantInvalid
    | StageInvalid
    | StageOrder
    | DuplicateAnswer(code: string)
    | QuestionInvalid(codes: seq<string>)
    | StageIncomplete
    | ResponsesMissing(group: string, codes: seq<string>)
    | ScoringFailed(error: CS.ScoringError)

  function Status(e: CoupleError): int {
    match e
    case ParticipantInvalid => 403
    case StageInvalid => 409
    case StageOrder => 409
    case DuplicateAnswer(_) => 400
    case QuestionInvalid(_) => 400
    case StageIncomplete => 409
    case ResponsesMissing(_, _) => 400
    case ScoringFailed(_) => 500
  }

  function TypeSuffix(e: CoupleError): string {
    match e
    case ParticipantInvalid => "participant-invalid"
    case StageInvalid => "stage-invalid"
    case StageOrder => "stage-order"
    case DuplicateAnswer(_) => "duplicate-answer"
    case QuestionInvalid(_) => "question-invalid"
    case StageIncomplete => "stage-incomplete"
    case ResponsesMissing(_, _) => "responses-missing"
    case ScoringFailed(_) => "scoring-error"
  }

  function MinInt(a: int, b: int): int {
    if a <= b then a else b
  }

  function MaxInt(a: int, b: int): int {
    if a >= b then a else b
  }

  // === QUESTION_CODES =======================================================

  /** QUESTION_CODES: the keys of QUESTION_REGISTRY, which are the 48 codes
    * of QUESTION_TO_SCALE. */
  function QuestionCodes(): set<string> {
    set c | c in CS.AllCodes()
  }

  /** len(QUESTION_CODES). */
  const QuestionCount: nat := 48

  lemma QuestionCodesSize()
    ensures |QuestionCodes()| == QuestionCount
  {
    CS.AllCodesDistinct();
    OM.DistinctCard(CS.AllCodes());
  }

  /** _is_complete: the dict has as many answers as there are registry
    * codes. */
  predicate IsComplete(m: map<string, int>) {
    |m| == QuestionCount
  }

  lemma {:induction false} SubsetSameSize(k: set<string>, q: set<string>)
    requires k <= q && |k| == |q|
    ensures k == q
  {
    if k != q {
      var x :| x in q && x !in k;
      assert k <= q - {x};
      assert |k| <= |q - {x}| by { SubsetSize(k, q - {x}); }
    }
  }

  lemma {:induction false} SubsetSize(k: set<string>, q: set<string>)
    requires k <= q
    ensures |k| <= |q|
  {
    assert q == k + (q - k);
  }

  /** A dict of registry codes is complete exactly when it holds every
    * registry code: counting stands in for coverage. */
  lemma CompleteIffAllCodes(m: map<string, int>)
    requires m.Keys <= QuestionCodes()
    ensures IsComplete(m) <==> m.Keys == QuestionCodes()
  {
    QuestionCodesSize();
    if IsComplete(m) {
      SubsetSameSize(m.Keys, QuestionCodes());
    }
  }

  /** The dict of submitted registry codes keeps only registry codes. */
  lemma AsMapKnown(d: seq<(string, int)>)
    requires forall k :: 0 <= k < |d| ==> d[k].0 in QuestionCodes()
    ensures OM.AsMap(d).Keys <= QuestionCodes()
  {
    forall c | c in OM.AsMap(d) ensures c in QuestionCodes() {
      assert OM.HasKey(d, c);
    }
  }

  // === _answers_to_dict =====================================================

  /** The submitted items as (code, value) pairs, in order. */
  function Pairs(items: seq<AnswerPayload>): (d: seq<(string, int)>)
    ensures |d| == |items| && forall i :: 0 <= i < |items| ==> d[i] == (items[i].code, items[i].value)
  {
    seq(|items|, i requires 0 <= i < |items| => (items[i].code, items[i].value))
  }

  predicate DistinctCodes(items: seq<AnswerPayload>) {
    forall i, j :: 0 <= i < j < |items| ==> items[i].code != items[j].code
  }

  /** Item j is the first one whose code was already seen. */
  predicate FirstRepeat(items: seq<AnswerPayload>, j: int) {
    0 <= j < |items| && DistinctCodes(items[..j]) &&
    exists i :: 0 <= i < j && items[i].code == items[j].code
  }

  /** What _answers_to_dict computes: the ordered dict of the items, or the
    * first repeated code. */
  function AnswersDictOf(items: seq<AnswerPayload>): Result<seq<(string, int)>, CoupleError> {
    if |items| == 0 then Ok([])
    else
      var front := AnswersDictOf(items[..|items| - 1]);
      var last := items[|items| - 1];
      if front.Err? then front
      else if OM.HasKey(front.value, last.code) then Err(DuplicateAnswer(last.code))
      else Ok(front.value + [(last.code, last.value)])
  }

  /** _answers_to_dict rejects exactly the submissions that repeat a code,
    * naming the first repeat; otherwise its keys and values are exactly the
    * submitted ones, in order. */
  lemma AnswersDictSpec(items: seq<AnswerPayload>)
    ensures AnswersDictOf(items).Ok? <==> DistinctCodes(items)
    ensures AnswersDictOf(items).Ok? ==> AnswersDictOf(items).value == Pairs(items) && OM.DistinctKeys(Pairs(items))
    ensures AnswersDictOf(items).Err? ==>
      exists j :: FirstRepeat(items, j) && AnswersDictOf(items).error == DuplicateAnswer(items[j].code)
  {
    AnswersDictOk(items);
    AnswersDictErr(items);
    if AnswersDictOf(items).Ok? {
      DistinctPairs(items);
    } else {
      var j :| FirstRepeat(items, j) && AnswersDictOf(items).error == DuplicateAnswer(items[j].code);
      var i :| 0 <= i < j && items[i].code == items[j].code;
    }
  }

  /** Distinct keys among the pairs are distinct codes among the items. */
  lemma DistinctPairs(items: seq<AnswerPayload>)
    requires OM.DistinctKeys(Pairs(items))
    ensures DistinctCodes(items)
  {
    var d := Pairs(items);
    forall i, j | 0 <= i < j < |items| ensures items[i].code != items[j].code {
      assert d[i].0 == items[i].code && d[j].0 == items[j].code;
    }
  }

  lemma {:induction false} AnswersDictOk(items: seq<AnswerPayload>)
    ensures AnswersDictOf(items).Ok? ==> AnswersDictOf(items).value == Pairs(items) && OM.DistinctKeys(Pairs(items))
  {
    if |items| > 0 && AnswersDictOf(items).Ok? {
      var n := |items| - 1;
      var front := items[..n];
      var last := items[n];
      AnswersDictOk(front);
      var f := AnswersDictOf(front);
      assert f.Ok? && !OM.HasKey(f.value, last.code);
      forall i | 0 <= i < n ensures items[i].code != last.code {
        assert f.value[i].0 == items[i].code;
      }
      assert f.value + [(last.code, last.value)] == Pairs(items);
    }
  }

  lemma {:induction false} AnswersDictErr(items: seq<AnswerPayload>)
    ensures AnswersDictOf(items).Err? ==>
      exists j :: FirstRepeat(items, j) && AnswersDictOf(items).error == DuplicateAnswer(items[j].code)
  {
    if |items| > 0 && AnswersDictOf(items).Err? {
      var n := |items| - 1;
      var front := items[..n];
      var last := items[n];
      var f := AnswersDictOf(front);
      if f.Err? {
        AnswersDictErr(front);
        var j :| FirstRepeat(front, j) && f.error == DuplicateAnswer(front[j].code);
        assert front[..j] == items[..j];
        var i :| 0 <= i < j && front[i].code == front[j].code;
        assert items[i].code == items[j].code;
        assert FirstRepeat(items, j);
      } else {
        assert OM.HasKey(f.value, last.code);
        AnswersDictOk(front);
        DistinctPairs(front);
        var i :| 0 <= i < |f.value| && f.value[i].0 == last.code;
        assert items[i].code == items[n].code;
        assert items[..n] == front;
        assert FirstRepeat(items, n);
      }
    }
  }

  lemma {:induction false} DictErrorSticks(items: seq<AnswerPayload>, k: nat)
    requires k <= |items| && AnswersDictOf(items[..k]).Err?
    ensures AnswersDictOf(items) == AnswersDictOf(items[..k])
    decreases |items| - k
  {
    if k < |items| {
      assert items[..k + 1][..k] == items[..k];
      DictErrorSticks(items, k + 1);
    } else {
      assert items[..k] == items;
    }
  }

  /** _answers_to_dict: fills `seen` item by item and stops at the first
    * repeated code. */
  method AnswersToDict(items: seq<AnswerPayload>) returns (r: Result<seq<(string, int)>, CoupleError>)
    ensures r == AnswersDictOf(items)
  {
    var seen: seq<(string, int)> := [];
    var i := 0;
    while i < |items|
      invariant 0 <= i <= |items|
      invariant AnswersDictOf(items[..i]) == Ok(seen) && OM.DistinctKeys(seen)
    {
      var item := items[i];
      assert items[..i + 1][..i] == items[..i];
      if OM.HasKey(seen, item.code) {
        DictErrorSticks(items, i + 1);
        return Err(DuplicateAnswer(item.code));
      }
      seen := OM.Put(seen, item.code, item.value);
      i := i + 1;
    }
    assert items[..i] == items;
    r := Ok(seen);
  }

  // === _ensure_question_codes ===============================================

  /** The keys of d outside QUESTION_CODES, in dict order. */
  function Unknown(d: seq<(string, int)>): (u: seq<string>)
    ensures forall c :: c in u <==> OM.HasKey(d, c) && c !in QuestionCodes()
  {
    if |d| == 0 then []
    else
      var front := d[..|d| - 1];
      var last := d[|d| - 1];
      assert forall c :: OM.HasKey(d, c) <==> OM.HasKey(front, c) || c == last.0 by {
        forall c | OM.HasKey(d, c) ensures OM.HasKey(front, c) || c == last.0 {
          var i :| 0 <= i < |d| && d[i].0 == c;
          if i < |d| - 1 { assert front[i].0 == c; }
        }
        forall c | OM.HasKey(front, c) ensures OM.HasKey(d, c) {
          var i :| 0 <= i < |front| && front[i].0 == c;
          assert d[i].0 == c;
        }
      }
      if last.0 in QuestionCodes() then Unknown(front) else Unknown(front) + [last.0]
  }

  /** _ensure_question_codes: rejects a dict with any key outside
    * QUESTION_CODES, listing the unknown codes sorted and without repeats. */
  function EnsureQuestionCodes(d: seq<(string, int)>): (r: Option<CoupleError>)
    ensures r.None? <==> forall k :: 0 <= k < |d| ==> d[k].0 in QuestionCodes()
    ensures r.Some? ==> r.value.QuestionInvalid?
    ensures r.Some? ==> forall c :: c in r.value.codes <==> OM.HasKey(d, c) && c !in QuestionCodes()
    ensures r.Some? ==> forall i, j :: 0 <= i < j < |r.value.codes| ==>
      Sorting.StrLe(r.value.codes[i], r.value.codes[j]) && r.value.codes[i] != r.value.codes[j]
  {
    var unknown := Unknown(d);
    if |unknown| == 0 then
      assert forall k :: 0 <= k < |d| ==> d[k].0 in QuestionCodes() by {
        forall k | 0 <= k < |d| ensures d[k].0 in QuestionCodes() {
          assert OM.HasKey(d, d[k].0);
        }
      }
      None
    else
      assert unknown[0] in unknown;
      Some(QuestionInvalid(Sorting.SortedUniqueStrings(unknown)))
  }

  // === upsert_responses admission ===========================================

  /** The stage rule: a submission never goes below the current stage, may
    * advance by at most one, and may enter stage 3 only when the caller's
    * own self and guess answers are complete. */
  predicate StageStepAllowed(current: int, requested: int, ownComplete: bool) {
    requested >= current &&
    (requested > current ==> requested <= MinInt(current + 1, 3) && (requested == 3 ==> ownComplete))
  }

  /** The checks upsert_responses makes before it touches any stored answer,
    * in source order: the access token, stage regression, duplicate codes in
    * the self then the guess answers, unknown codes in the self then the
    * guess answers, and the stage order. On success, the two answer dicts. */
  function Admission(role: Option<Role>, current: int, ownComplete: bool, requested: int,
                     selfItems: seq<AnswerPayload>, guessItems: seq<AnswerPayload>): Result<(seq<(string, int)>, seq<(string, int)>), CoupleError>
  {
    if role.None? then Err(ParticipantInvalid)
    else if requested < current then Err(StageInvalid)
    else
      var s := AnswersDictOf(selfItems);
      if s.Err? then Err(s.error)
      else
        var g := AnswersDictOf(guessItems);
        if g.Err? then Err(g.error)
        else if EnsureQuestionCodes(s.value).Some? then Err(EnsureQuestionCodes(s.value).value)
        else if EnsureQuestionCodes(g.value).Some? then Err(EnsureQuestionCodes(g.value).value)
        else if requested > current && requested > MinInt(current + 1, 3) then Err(StageOrder)
        else if requested > current && requested == 3 && !ownComplete then Err(StageOrder)
        else Ok((s.value, g.value))
  }

  predicate AllKnown(items: seq<AnswerPayload>) {
    forall i :: 0 <= i < |items| ==> items[i].code in QuestionCodes()
  }

  /** A submission is admitted exactly when the token names a participant,
    * both answer lists are free of repeats and use registry codes only, and
    * the stage step is allowed; the admitted dicts are the submissions. */
  lemma AdmissionIff(role: Option<Role>, current: int, ownComplete: bool, requested: int,
                     selfItems: seq<AnswerPayload>, guessItems: seq<AnswerPayload>)
    ensures var r := Admission(role, current, ownComplete, requested, selfItems, guessItems);
      r.Ok? <==> (role.Some? && DistinctCodes(selfItems) && DistinctCodes(guessItems) &&
        AllKnown(selfItems) && AllKnown(guessItems) && StageStepAllowed(current, requested, ownComplete))
    ensures var r := Admission(role, current, ownComplete, requested, selfItems, guessItems);
      r.Ok? ==> r.value == (Pairs(selfItems), Pairs(guessItems))
  {
    AnswersDictSpec(selfItems);
    AnswersDictSpec(guessItems);
    var s := AnswersDictOf(selfItems);
    var g := AnswersDictOf(guessItems);
    if s.Ok? {
      assert AllKnown(selfItems) <==> forall k :: 0 <= k < |s.value| ==> s.value[k].0 in QuestionCodes();
    }
    if g.Ok? {
      assert AllKnown(guessItems) <==> forall k :: 0 <= k < |g.value| ==> g.value[k].0 in QuestionCodes();
    }
  }

  /** What the session stores of an admitted submission: the submitted
    * pairs, keyed by registry codes only. */
  lemma AdmittedPairs(role: Option<Role>, current: int, ownComplete: bool, requested: int,
                      selfItems: seq<AnswerPayload>, guessItems: seq<AnswerPayload>)
    requires Admission(role, current, ownComplete, requested, selfItems, guessItems).Ok?
    ensures Admission(role, current, ownComplete, requested, selfItems, guessItems).value == (Pairs(selfItems), Pairs(guessItems))
    ensures OM.AsMap(Pairs(selfItems)).Keys <= QuestionCodes() && OM.AsMap(Pairs(guessItems)).Keys <= QuestionCodes()
  {
    AdmissionIff(role, current, ownComplete, requested, selfItems, guessItems);
    AsMapKnown(Pairs(selfItems));
    AsMapKnown(Pairs(guessItems));
  }

  /** The checks of upsert_responses, one after another as the source makes
    * them, before anything is stored. */
  method CheckSubmission(role: Option<Role>, current: int, ownComplete: bool, requested: int,
                         selfItems: seq<AnswerPayload>, guessItems: seq<AnswerPayload>)
    returns (r: Result<(seq<(string, int)>, seq<(string, int)>), CoupleError>)
    ensures r == Admission(role, current, ownComplete, requested, selfItems, guessItems)
  {
    if role.None? {
      return Err(ParticipantInvalid);
    }
    if requested < current {
      return Err(StageInvalid);
    }
    var s := AnswersToDict(selfItems);
    if s.Err? {
      return Err(s.error);
    }
    var g := AnswersToDict(guessItems);
    if g.Err? {
      return Err(g.error);
    }
    var unknownSelf := EnsureQuestionCodes(s.value);
    if unknownSelf.Some? {
      return Err(unknownSelf.value);
    }
    var unknownGuess := EnsureQuestionCodes(g.value);
    if unknownGuess.Some? {
      return Err(unknownGuess.value);
    }
    if requested > current {
      var allowed := MinInt(current + 1, 3);
      if requested > allowed {
        return Err(StageOrder);
      }
      if requested == 3 && !ownComplete {
        return Err(StageOrder);
      }
    }
    r := Ok((s.value, g.value));
  }

  /** Which stage error a well-formed submission from a participant gets:
    * stage-invalid exactly on regression, stage-order exactly on a skipped
    * stage or an early move to stage 3. */
  lemma StageErrors(role: Role, current: int, ownComplete: bool, requested: int,
                    selfItems: seq<AnswerPayload>, guessItems: seq<AnswerPayload>)
    requires DistinctCodes(selfItems) && DistinctCodes(guessItems) && AllKnown(selfItems) && AllKnown(guessItems)
    ensures var r := Admission(Some(role), current, ownComplete, requested, selfItems, guessItems);
      (r == Err(StageInvalid) <==> requested < current) &&
      (r == Err(StageOrder) <==> requested > current && (requested > MinInt(current + 1, 3) || (requested == 3 && !ownComplete)))
  {
    AdmissionIff(Some(role), current, ownComplete, requested, selfItems, guessItems);
    AnswersDictSpec(selfItems);
    AnswersDictSpec(guessItems);
  }

  // === _mark_completion =====================================================

  /** The stage after _mark_completion: raised to 3 when all four answer sets
    * are complete, else to 2, and never lowered. */
  function NextStage(stage: int, allComplete: bool): (s: int)
    ensures s >= stage && s >= 2 && (allComplete ==> s >= 3)
    ensures stage <= 3 ==> s <= 3
    ensures s == stage || s == (if allComplete then 3 else 2)
  {
    if allComplete then MaxInt(stage, 3) else MaxInt(stage, 2)
  }

  // === _log_event ===========================================================

  /** The payloads of the four audited events. */
  datatype EventPayload =
    | SessionCreated(kThreshold: int, kValue: int, roles: seq<Role>)
    | Stage1Updated(snapshot: StageOneSnapshot)
    | ResponsesUpserted(role: Role, stage: int, selfCompleted: bool, guessCompleted: bool, kValue: int, kVisible: bool)
    | ResultComputed(topDeltaItems: seq<string>, gapGrade: CS.Grade, packetSha256: string, codeRef: string,
                     modelId: string, kThreshold: int, kValue: int, kVisible: bool)

  /** An audit row; body is the serialised {event_type, payload, ts}. */
  datatype AuditEvent = AuditEvent(eventType: string, payload: EventPayload, body: string,
                                   prevHash: Option<string>, hash: string, codeRef: string)

  function PrevOrEmpty(p: Option<string>): string {
    if p.Some? then p.value else ""
  }

  /** The audit log forms a hash chain: each event records the previous
    * event's hash (none for the first) and hashes it together with its body. */
  ghost predicate Chained(events: seq<AuditEvent>, sha256: string -> string) {
    (|events| > 0 ==> events[0].prevHash == None) &&
    (forall i, j :: 0 <= i < j < |events| && j == i + 1 ==> events[j].prevHash == Some(events[i].hash)) &&
    (forall i :: 0 <= i < |events| ==> events[i].hash == sha256(PrevOrEmpty(events[i].prevHash) + events[i].body))
  }

  /** The event _log_event appends after the given log. */
  function NextEvent(events: seq<AuditEvent>, eventType: string, payload: EventPayload, body: string,
                     sha256: string -> string, codeRef: string): (e: AuditEvent)
    ensures Chained(events, sha256) ==> Chained(events + [e], sha256)
    ensures e.prevHash == (if |events| == 0 then None else Some(events[|events| - 1].hash))
  {
    var prev := if |events| == 0 then None else Some(events[|events| - 1].hash);
    AuditEvent(eventType, payload, body, prev, sha256(PrevOrEmpty(prev) + body), codeRef)
  }

  /** Tamper evidence: two chains of the same length that end in the same
    * hash, with 64-character digests and no digest collision between them,
    * carry the same bodies throughout. */
  lemma {:induction false} ChainPinsBodies(es: seq<AuditEvent>, fs: seq<AuditEvent>, sha256: string -> string)
    requires Chained(es, sha256) && Chained(fs, sha256) && |es| == |fs| > 0
    requires forall i :: 0 <= i < |es| ==> |es[i].hash| == 64 && |fs[i].hash| == 64
    requires forall i :: 0 <= i < |es| && es[i].hash == fs[i].hash ==>
      PrevOrEmpty(es[i].prevHash) + es[i].body == PrevOrEmpty(fs[i].prevHash) + fs[i].body
    requires es[|es| - 1].hash == fs[|fs| - 1].hash
    ensures forall i :: 0 <= i < |es| ==> es[i].body == fs[i].body
  {
    var n := |es| - 1;
    if n > 0 {
      assert es[n].prevHash == Some(es[n - 1].hash);
      assert fs[n].prevHash == Some(fs[n - 1].hash);
    }
    var x := PrevOrEmpty(es[n].prevHash);
    var y := PrevOrEmpty(fs[n].prevHash);
    assert x + es[n].body == y + fs[n].body;
    if n == 0 {
      assert x == "" && y == "";
      assert es[0].body == x + es[0].body;
      assert fs[0].body == y + fs[0].body;
    } else {
      assert |x| == 64 && |y| == 64;
      assert x == (x + es[n].body)[..64];
      assert y == (y + fs[n].body)[..64];
      assert es[n].body == (x + es[n].body)[64..];
      assert fs[n].body == (y + fs[n].body)[64..];
      assert forall i :: 0 <= i < n ==> es[..n][i] == es[i] && fs[..n][i] == fs[i];
      ChainPinsBodies(es[..n], fs[..n], sha256);
    }
  }

  // === compute_result =======================================================

  /** The four answer dicts compute_result rebuilds from the response rows. */
  datatype AnswerSets = AnswerSets(aSelf: map<string, int>, aGuess: map<string, int>,
                                   bSelf: map<string, int>, bGuess: map<string, int>)

  /** The responses-missing check for one labelled dict: the first ten missing
    * codes in sorted order. */
  function MissingFor(m: map<string, int>, group: string): (e: Option<CoupleError>)
    ensures e.None? <==> QuestionCodes() <= m.Keys
    ensures e.Some? ==> e.value.ResponsesMissing? && e.value.group == group && 0 < |e.value.codes| <= 10
    ensures e.Some? ==> forall c :: c in e.value.codes ==> c in QuestionCodes() && c !in m
    ensures e.Some? ==> forall i, j :: 0 <= i < j < |e.value.codes| ==> Sorting.StrLe(e.value.codes[i], e.value.codes[j])
    ensures e.Some? ==> forall c :: c in QuestionCodes() && c !in m && c !in e.value.codes ==>
      |e.value.codes| == 10 && forall i :: 0 <= i < 10 ==> Sorting.StrLe(e.value.codes[i], c)
  {
    var missing := Sorting.SortedUniqueStrings(CS.MissingCodes(CS.AllCodes(), m));
    if |missing| == 0 then
      assert QuestionCodes() <= m.Keys by {
        forall c | c in QuestionCodes() ensures c in m {
          assert c !in missing;
        }
      }
      None
    else
      assert missing[0] !in m;
      FirstTenFacts(missing);
      Some(ResponsesMissing(group, FirstTen(missing)))
  }

  /** missing[:10]. */
  function FirstTen(s: seq<string>): seq<string> {
    if |s| <= 10 then s else s[..10]
  }

  /** The first ten of a non-empty sorted list: at most ten, still sorted,
    * and anything left out is ten places behind all of them. */
  lemma FirstTenFacts(missing: seq<string>)
    requires |missing| > 0
    requires forall i, j :: 0 <= i < j < |missing| ==> Sorting.StrLe(missing[i], missing[j])
    ensures 0 < |FirstTen(missing)| <= 10
    ensures forall c :: c in FirstTen(missing) ==> c in missing
    ensures forall i, j :: 0 <= i < j < |FirstTen(missing)| ==> Sorting.StrLe(FirstTen(missing)[i], FirstTen(missing)[j])
    ensures forall c :: c in missing && c !in FirstTen(missing) ==>
      |FirstTen(missing)| == 10 && forall i :: 0 <= i < 10 ==> Sorting.StrLe(FirstTen(missing)[i], c)
  {
    var codes := FirstTen(missing);
    assert forall i :: 0 <= i < |codes| ==> codes[i] == missing[i];
    forall c | c in missing && c !in codes ensures |codes| == 10 && forall i :: 0 <= i < 10 ==> Sorting.StrLe(codes[i], c) {
      var j :| 0 <= j < |missing| && missing[j] == c;
      assert j >= 10;
    }
  }

  /** The responses-missing check over A.self, A.guess, B.self, B.guess. */
  function FirstMissing(ans: AnswerSets): Option<CoupleError> {
    if MissingFor(ans.aSelf, "A.self").Some? then MissingFor(ans.aSelf, "A.self")
    else if MissingFor(ans.aGuess, "A.guess").Some? then MissingFor(ans.aGuess, "A.guess")
    else if MissingFor(ans.bSelf, "B.self").Some? then MissingFor(ans.bSelf, "B.self")
    else MissingFor(ans.bGuess, "B.guess")
  }

  function ScoringError(m: map<string, int>): Option<CoupleError> {
    var r := CS.ComputeScaleMeans(m);
    if r.Err? then Some(ScoringFailed(r.error)) else None
  }

  /** The first of the four compute_scale_means calls that raises. */
  function FirstScoringError(ans: AnswerSets): Option<CoupleError> {
    if ScoringError(ans.aSelf).Some? then ScoringError(ans.aSelf)
    else if ScoringError(ans.aGuess).Some? then ScoringError(ans.aGuess)
    else if ScoringError(ans.bSelf).Some? then ScoringError(ans.bSelf)
    else ScoringError(ans.bGuess)
  }

  /** combined_scales: the mean of the two self scale means per scale. */
  function CombinedSelfScales(a: seq<(string, real)>, b: seq<(string, real)>): (c: seq<(string, real)>)
    ensures |c| == |a| && forall k :: 0 <= k < |a| ==> c[k].0 == a[k].0
  {
    seq(|a|, k requires 0 <= k < |a| => (a[k].0, (a[k].1 + OM.Get(b, a[k].0, 0.0)) / 2.0))
  }

  /** raw_self_combined: per registry code, the smaller self answer (4 when
    * absent). */
  function RawSelfCombined(aSelf: map<string, int>, bSelf: map<string, int>): (m: map<string, int>)
    ensures m.Keys == QuestionCodes()
  {
    map c | c in QuestionCodes() :: MinInt(CS.GetOr(aSelf, c, 4), CS.GetOr(bSelf, c, 4))
  }

  datatype CoupleResult = CoupleResult(
    scalesASelf: seq<(string, real)>, scalesAGuess: seq<(string, real)>,
    scalesBSelf: seq<(string, real)>, scalesBGuess: seq<(string, real)>,
    deltas: CS.DeltaBundle, flags: seq<CS.Flag>, insights: seq<CS.Card>,
    topDeltaItems: seq<string>, gapSummary: CS.GapSummary)

  /** What compute_result computes once the session is complete: the
    * responses-missing check, the four scale-mean tables, the deltas, the
    * five top items, the flags over the combined self scales and the
    * smaller raw self answers, the insight cards and the gap summary. */
  function PipelineOf(ans: AnswerSets): Result<CoupleResult, CoupleError> {
    if FirstMissing(ans).Some? then Err(FirstMissing(ans).value)
    else if FirstScoringError(ans).Some? then Err(FirstScoringError(ans).value)
    else
      Ok(Outputs(ans, CS.ComputeScaleMeans(ans.aSelf).value, CS.ComputeScaleMeans(ans.aGuess).value,
                 CS.ComputeScaleMeans(ans.bSelf).value, CS.ComputeScaleMeans(ans.bGuess).value))
  }

  /** The outputs of compute_result once the four scale-mean tables exist. */
  function Outputs(ans: AnswerSets, scalesASelf: seq<(string, real)>, scalesAGuess: seq<(string, real)>,
                   scalesBSelf: seq<(string, real)>, scalesBGuess: seq<(string, real)>): CoupleResult
  {
    var deltas := CS.ComputeDeltas(ans.aSelf, ans.aGuess, ans.bSelf, ans.bGuess);
    var flags := CS.FlagsOf(CombinedSelfScales(scalesASelf, scalesBSelf), RawSelfCombined(ans.aSelf, ans.bSelf));
    CS.DeltaItemsDistinct(ans.aGuess, ans.bSelf);
    CS.DeltaItemsDistinct(ans.bGuess, ans.aSelf);
    CoupleResult(
      scalesASelf, scalesAGuess, scalesBSelf, scalesBGuess, deltas, flags,
      CS.FirstThree(CS.FlagCards(flags) + CS.ScaleCards(Sorting.Sort(CS.CombinedScales(deltas.scalesA, deltas.scalesB), CS.ByValueDesc))),
      CS.TopCodes(Sorting.Sort(CS.CombinedOf(deltas.itemsA, deltas.itemsB), CS.ByValueDesc), 5),
      CS.SummarizeGap(deltas.scalesA, deltas.scalesB))
  }

  /** The pipeline of compute_result, step by step as the source runs it. */
  method RunPipeline(ans: AnswerSets) returns (r: Result<CoupleResult, CoupleError>)
    ensures r == PipelineOf(ans)
  {
    var missing := MissingFor(ans.aSelf, "A.self");
    if missing.None? { missing := MissingFor(ans.aGuess, "A.guess"); }
    if missing.None? { missing := MissingFor(ans.bSelf, "B.self"); }
    if missing.None? { missing := MissingFor(ans.bGuess, "B.guess"); }
    if missing.Some? {
      return Err(missing.value);
    }
    var scalesASelf := CS.ComputeScaleMeans(ans.aSelf);
    if scalesASelf.Err? {
      return Err(ScoringFailed(scalesASelf.error));
    }
    var scalesAGuess := CS.ComputeScaleMeans(ans.aGuess);
    if scalesAGuess.Err? {
      return Err(ScoringFailed(scalesAGuess.error));
    }
    var scalesBSelf := CS.ComputeScaleMeans(ans.bSelf);
    if scalesBSelf.Err? {
      return Err(ScoringFailed(scalesBSelf.error));
    }
    var scalesBGuess := CS.ComputeScaleMeans(ans.bGuess);
    if scalesBGuess.Err? {
      return Err(ScoringFailed(scalesBGuess.error));
    }
    var deltas := CS.ComputeDeltas(ans.aSelf, ans.aGuess, ans.bSelf, ans.bGuess);
    CS.DeltaItemsDistinct(ans.aGuess, ans.bSelf);
    CS.DeltaItemsDistinct(ans.bGuess, ans.aSelf);
    var topItems := CS.RankTopDeltaItems(deltas.itemsA, deltas.itemsB, 5);
    var combined := CombinedSelfScales(scalesASelf.value, scalesBSelf.value);
    var rawSelf := RawSelfCombined(ans.aSelf, ans.bSelf);
    var flags := CS.FlagRules(combined, rawSelf);
    var insights := CS.BuildInsights(deltas.scalesA, deltas.scalesB, flags);
    var gap := CS.SummarizeGap(deltas.scalesA, deltas.scalesB);
    r := Ok(CoupleResult(scalesASelf.value, scalesAGuess.value, scalesBSelf.value, scalesBGuess.value,
                         deltas, flags, insights, topItems, gap));
  }

  /** Every registry code answered, each within its item's range. */
  predicate FullyAnswered(m: map<string, int>) {
    m.Keys == QuestionCodes() && forall c :: c in m ==> 0 <= m[c] <= CS.UpperBound(c)
  }

  /** A dict whose keys are exactly the registry codes never triggers
    * responses-missing, whatever its values. */
  lemma NoMissingWhenComplete(ans: AnswerSets)
    requires ans.aSelf.Keys == QuestionCodes() && ans.aGuess.Keys == QuestionCodes()
    requires ans.bSelf.Keys == QuestionCodes() && ans.bGuess.Keys == QuestionCodes()
    ensures FirstMissing(ans) == None
  {
  }

  /** One fully answered dict passes both the missing check and scoring. */
  lemma FullyAnsweredScores(m: map<string, int>, group: string)
    requires FullyAnswered(m)
    ensures MissingFor(m, group) == None && ScoringError(m) == None
  {
    CS.CompleteAnswersScore(m);
  }

  /** Four dicts holding exactly the registry codes with in-range values
    * always yield a result. */
  lemma PipelineSucceeds(ans: AnswerSets)
    requires FullyAnswered(ans.aSelf) && FullyAnswered(ans.aGuess) && FullyAnswered(ans.bSelf) && FullyAnswered(ans.bGuess)
    ensures PipelineOf(ans).Ok?
  {
    FullyAnsweredScores(ans.aSelf, "A.self");
    FullyAnsweredScores(ans.aGuess, "A.guess");
    FullyAnsweredScores(ans.bSelf, "B.self");
    FullyAnsweredScores(ans.bGuess, "B.guess");
  }

  /** A result carries at most five top items and three insight cards, and
    * only flags from the fixed flag list. */
  lemma OutputsBounded(ans: AnswerSets, sAS: seq<(string, real)>, sAG: seq<(string, real)>,
                       sBS: seq<(string, real)>, sBG: seq<(string, real)>)
    ensures var o := Outputs(ans, sAS, sAG, sBS, sBG);
      |o.topDeltaItems| <= 5 && |o.insights| <= 3 && forall f :: f in o.flags ==> f in CS.FlagOrder
  {
    CS.FlagsRaisedIff(CombinedSelfScales(sAS, sBS), RawSelfCombined(ans.aSelf, ans.bSelf));
  }

  const ModelId: string := "core_scoring.v1"

  /** The decision-packet payload: inputs (answers, k state, snapshot),
    * outputs, code_ref and model_id. */
  datatype PacketPayload = PacketPayload(
    answers: AnswerSets, kThreshold: int, kValue: int, kVisible: bool,
    stage1Snapshot: Option<StageOneSnapshot>, outputs: CoupleResult, codeRef: string, modelId: string)

  datatype DecisionPacket = DecisionPacket(payload: PacketPayload, packetSha256: string, codeRef: string, modelId: string)

  /** What upsert_responses returns. */
  datatype UpsertReceipt = UpsertReceipt(
    role: Role, stage: int, selfCompleted: bool, guessCompleted: bool,
    aSelfCompleted: bool, aGuessCompleted: bool, bSelfCompleted: bool, bGuessCompleted: bool)

  // === CoupleSession and CoupleService ======================================

  /** A couple session with its participants' stored answers, audit log,
    * result and decision packets. */
  class Session {
    var stage: int
    var aSelfCompleted: bool
    var aGuessCompleted: bool
    var bSelfCompleted: bool
    var bGuessCompleted: bool
    var stage3Completed: bool
    const kThreshold: int
    var kValue: int
    var kVisible: bool
    var stage1Snapshot: Option<StageOneSnapshot>
    const tokenA: string
    const tokenB: string
    var answers: AnswerSets
    var audit: seq<AuditEvent>
    var result: Option<CoupleResult>
    var packets: seq<DecisionPacket>
    var lastComputedAt: Option<string>
    const codeRef: string
    const sha256: string -> string
    const eventJson: (string, EventPayload, string) -> string
    const canonicalJson: PacketPayload -> string

    predicate AllComplete()
      reads this`aSelfCompleted, this`aGuessCompleted, this`bSelfCompleted, this`bGuessCompleted
    {
      aSelfCompleted && aGuessCompleted && bSelfCompleted && bGuessCompleted
    }

    /** The structural invariant: stage in 1..3 and 3 once everything is
      * complete or computed, k_visible only at or above the threshold,
      * stored codes drawn from the registry, the audit log a hash chain. */
    ghost predicate Valid()
      reads this`stage, this`aSelfCompleted, this`aGuessCompleted, this`bSelfCompleted, this`bGuessCompleted, this`stage3Completed
      reads this`kValue, this`kVisible, this`answers, this`audit
    {
      StageValid() && KValid() && AnswersValid() && Chained(audit, sha256) && tokenA != tokenB
    }

    ghost predicate StageValid()
      reads this`stage, this`aSelfCompleted, this`aGuessCompleted, this`bSelfCompleted, this`bGuessCompleted, this`stage3Completed
    {
      1 <= stage <= 3 &&
      (aSelfCompleted && aGuessCompleted && bSelfCompleted && bGuessCompleted ==> stage == 3) &&
      (stage3Completed ==> stage == 3)
    }

    ghost predicate KValid()
      reads this`kValue, this`kVisible
    {
      1 <= kThreshold <= 10 && kValue >= 0 && (kVisible ==> kValue >= kThreshold)
    }

    ghost predicate AnswersValid()
      reads this`answers
    {
      answers.aSelf.Keys <= QuestionCodes() && answers.aGuess.Keys <= QuestionCodes() &&
      answers.bSelf.Keys <= QuestionCodes() && answers.bGuess.Keys <= QuestionCodes()
    }

    /** Each completion flag says its stored answer set has as many answers
      * as there are registry codes, which with AnswersValid means every
      * registry code (CompleteIffAllCodes). */
    ghost predicate Consistent()
      reads this`answers, this`aSelfCompleted, this`aGuessCompleted, this`bSelfCompleted, this`bGuessCompleted
    {
      (aSelfCompleted <==> IsComplete(answers.aSelf)) &&
      (aGuessCompleted <==> IsComplete(answers.aGuess)) &&
      (bSelfCompleted <==> IsComplete(answers.bSelf)) &&
      (bGuessCompleted <==> IsComplete(answers.bGuess))
    }

    /** The participant an access token belongs to. */
    function RoleOf(token: string): Option<Role> {
      if token == tokenA then Some(A) else if token == tokenB then Some(B) else None
    }

    /** _can_progress: the role's own self and guess answers are complete. */
    predicate CanProgress(role: Role)
      reads this`aSelfCompleted, this`aGuessCompleted, this`bSelfCompleted, this`bGuessCompleted
    {
      match role
      case A => aSelfCompleted && aGuessCompleted
      case B => bSelfCompleted && bGuessCompleted
    }

    function Admit(token: string, requested: int, selfItems: seq<AnswerPayload>, guessItems: seq<AnswerPayload>): Result<(seq<(string, int)>, seq<(string, int)>), CoupleError>
      reads this
    {
      var role := RoleOf(token);
      Admission(role, stage, role.Some? && CanProgress(role.value), requested, selfItems, guessItems)
    }

    /** create_session: stage 1, nothing complete, k_visible only for a
      * visible snapshot at or above the threshold, one "session.created"
      * event. */
    constructor (threshold: int, snapshot: Option<StageOneSnapshot>, tokA: string, tokB: string,
                 ref: string, hash: string -> string, toJson: (string, EventPayload, string) -> string,
                 canonical: PacketPayload -> string, now: string)
      requires 1 <= threshold <= 10 && tokA != tokB
      ensures Valid() && Consistent()
      ensures stage == 1 && !aSelfCompleted && !aGuessCompleted && !bSelfCompleted && !bGuessCompleted && !stage3Completed
      ensures kThreshold == threshold && tokenA == tokA && tokenB == tokB
      ensures kValue == (if snapshot.Some? then snapshot.value.k else 0)
      ensures kVisible == (snapshot.Some? && snapshot.value.visible && snapshot.value.k >= threshold)
      ensures stage1Snapshot == snapshot
      ensures answers == AnswerSets(map[], map[], map[], map[])
      ensures result == None && packets == [] && lastComputedAt == None
      ensures |audit| == 1 && audit[0].eventType == "session.created" && audit[0].prevHash == None
      ensures audit[0].payload == SessionCreated(threshold, kValue, [A, B])
    {
      stage := 1;
      aSelfCompleted := false;
      aGuessCompleted := false;
      bSelfCompleted := false;
      bGuessCompleted := false;
      stage3Completed := false;
      kThreshold := threshold;
      kValue := 0;
      kVisible := false;
      stage1Snapshot := None;
      if snapshot.Some? {
        kValue := snapshot.value.k;
        kVisible := snapshot.value.visible && snapshot.value.k >= threshold;
        stage1Snapshot := snapshot;
      }
      tokenA := tokA;
      tokenB := tokB;
      answers := AnswerSets(map[], map[], map[], map[]);
      audit := [];
      result := None;
      packets := [];
      lastComputedAt := None;
      codeRef := ref;
      sha256 := hash;
      eventJson := toJson;
      canonicalJson := canonical;
      new;
      QuestionCodesSize();
      LogEvent("session.created", SessionCreated(kThreshold, kValue, [A, B]), now);
    }

    /** _log_event: appends one event chained to the latest one. */
    method LogEvent(eventType: string, payload: EventPayload, now: string)
      requires Valid()
      modifies this`audit
      ensures audit == old(audit) + [NextEvent(old(audit), eventType, payload, eventJson(eventType, payload, now), sha256, codeRef)]
      ensures Valid()
    {
      var prevHash := if |audit| == 0 then None else Some(audit[|audit| - 1].hash);
      var body := eventJson(eventType, payload, now);
      var digest := sha256(PrevOrEmpty(prevHash) + body);
      audit := audit + [AuditEvent(eventType, payload, body, prevHash, digest, codeRef)];
    }

    /** update_stage_one: records the snapshot, recomputes k_visible, and
      * raises the stage to at least 2 only for a visible k at or above the
      * threshold. */
    method UpdateStageOne(snapshot: StageOneSnapshot, now: string)
      requires Valid()
      modifies this`kValue, this`kVisible, this`stage, this`stage1Snapshot, this`audit
      ensures Valid()
      ensures kValue == snapshot.k && kVisible == (snapshot.visible && snapshot.k >= kThreshold)
      ensures stage == (if snapshot.visible && snapshot.k >= kThreshold then MaxInt(old(stage), 2) else old(stage))
      ensures stage1Snapshot == Some(snapshot)
      ensures audit == old(audit) + [NextEvent(old(audit), "stage1.updated", Stage1Updated(snapshot),
        eventJson("stage1.updated", Stage1Updated(snapshot), now), sha256, codeRef)]
    {
      ApplyStageOne(snapshot);
      LogEvent("stage1.updated", Stage1Updated(snapshot), now);
    }

    /** The state update of update_stage_one. */
    method ApplyStageOne(snapshot: StageOneSnapshot)
      requires Valid()
      modifies this`kValue, this`kVisible, this`stage, this`stage1Snapshot
      ensures Valid()
      ensures kValue == snapshot.k && kVisible == (snapshot.visible && snapshot.k >= kThreshold)
      ensures stage == (if snapshot.visible && snapshot.k >= kThreshold then MaxInt(old(stage), 2) else old(stage))
      ensures stage1Snapshot == Some(snapshot)
    {
      kValue := snapshot.k;
      kVisible := snapshot.visible && snapshot.k >= kThreshold;
      if snapshot.k >= kThreshold && snapshot.visible {
        stage := MaxInt(stage, 2);
      }
      stage1Snapshot := Some(snapshot);
    }

    /** _mark_completion: the role's flags become "complete by count", then
      * the stage is raised through NextStage. */
    method MarkCompletion(role: Role, selfAnswers: map<string, int>, guessAnswers: map<string, int>)
      requires Valid()
      modifies this`aSelfCompleted, this`aGuessCompleted, this`bSelfCompleted, this`bGuessCompleted, this`stage
      ensures Valid()
      ensures role == A ==> (aSelfCompleted == IsComplete(selfAnswers) && aGuessCompleted == IsComplete(guessAnswers) &&
        bSelfCompleted == old(bSelfCompleted) && bGuessCompleted == old(bGuessCompleted))
      ensures role == B ==> (bSelfCompleted == IsComplete(selfAnswers) && bGuessCompleted == IsComplete(guessAnswers) &&
        aSelfCompleted == old(aSelfCompleted) && aGuessCompleted == old(aGuessCompleted))
      ensures stage == NextStage(old(stage), AllComplete())
    {
      var completedSelf := IsComplete(selfAnswers);
      var completedGuess := IsComplete(guessAnswers);
      if role == A {
        aSelfCompleted := completedSelf;
        aGuessCompleted := completedGuess;
      } else {
        bSelfCompleted := completedSelf;
        bGuessCompleted := completedGuess;
      }
      if aSelfCompleted && aGuessCompleted && bSelfCompleted && bGuessCompleted {
        stage := MaxInt(stage, 3);
      } else {
        stage := MaxInt(stage, 2);
      }
    }

    /** upsert_responses: every check happens before any stored answer
      * changes, so a rejected submission leaves the session untouched; an
      * admitted one replaces the caller's two answer sets, recomputes the
      * caller's completion flags and the stage, and logs one event. */
    method UpsertResponses(token: string, requested: int, selfItems: seq<AnswerPayload>, guessItems: seq<AnswerPayload>, now: string)
      returns (r: Result<UpsertReceipt, CoupleError>)
      requires Valid() && Consistent()
      requires 2 <= requested <= 3
      modifies this`answers, this`aSelfCompleted, this`aGuessCompleted, this`bSelfCompleted, this`bGuessCompleted, this`stage, this`audit
      ensures Valid() && Consistent()
      ensures r.Err? <==> old(Admit(token, requested, selfItems, guessItems)).Err?
      ensures r.Err? ==> r.error == old(Admit(token, requested, selfItems, guessItems)).error && unchanged(this)
      ensures r.Ok? ==> stage == NextStage(old(stage), AllComplete())
      ensures r.Ok? && RoleOf(token) == Some(A) ==>
        answers == old(answers).(aSelf := OM.AsMap(Pairs(selfItems)), aGuess := OM.AsMap(Pairs(guessItems))) &&
        bSelfCompleted == old(bSelfCompleted) && bGuessCompleted == old(bGuessCompleted)
      ensures r.Ok? && RoleOf(token) == Some(B) ==>
        answers == old(answers).(bSelf := OM.AsMap(Pairs(selfItems)), bGuess := OM.AsMap(Pairs(guessItems))) &&
        aSelfCompleted == old(aSelfCompleted) && aGuessCompleted == old(aGuessCompleted)
      ensures r.Ok? ==> r.value == Receipt(RoleOf(token).value, requested, OM.AsMap(Pairs(selfItems)), OM.AsMap(Pairs(guessItems)))
      ensures r.Ok? ==> audit == old(audit) + [UpsertEvent(old(audit), RoleOf(token).value, requested,
        OM.AsMap(Pairs(selfItems)), OM.AsMap(Pairs(guessItems)), now)]
    {
      var role := RoleOf(token);
      var admitted := CheckSubmission(role, stage, role.Some? && CanProgress(role.value), requested, selfItems, guessItems);
      if admitted.Err? {
        return Err(admitted.error);
      }
      AdmittedPairs(role, stage, role.Some? && CanProgress(role.value), requested, selfItems, guessItems);
      var selfAnswers, guessAnswers := OM.AsMap(admitted.value.0), OM.AsMap(admitted.value.1);
      var receipt := ApplySubmission(role.value, requested, selfAnswers, guessAnswers, now);
      r := Ok(receipt);
    }

    /** The response of upsert_responses: the caller's role and stage, whether
      * each submitted dict is complete, and the four session flags. */
    function Receipt(role: Role, requested: int, selfAnswers: map<string, int>, guessAnswers: map<string, int>): UpsertReceipt
      reads this`aSelfCompleted, this`aGuessCompleted, this`bSelfCompleted, this`bGuessCompleted
    {
      UpsertReceipt(role, requested, IsComplete(selfAnswers), IsComplete(guessAnswers),
                    aSelfCompleted, aGuessCompleted, bSelfCompleted, bGuessCompleted)
    }

    /** The "responses.upserted" event: the caller's role and stage, the
      * caller's two completion flags, and k. */
    function UpsertEvent(events: seq<AuditEvent>, role: Role, requested: int,
                         selfAnswers: map<string, int>, guessAnswers: map<string, int>, now: string): AuditEvent
      reads this`kValue, this`kVisible
    {
      var payload := ResponsesUpserted(role, requested, IsComplete(selfAnswers), IsComplete(guessAnswers), kValue, kVisible);
      NextEvent(events, "responses.upserted", payload, eventJson("responses.upserted", payload, now), sha256, codeRef)
    }

    /** Everything upsert_responses does once a submission is admitted. */
    method ApplySubmission(role: Role, requested: int, selfAnswers: map<string, int>, guessAnswers: map<string, int>, now: string)
      returns (receipt: UpsertReceipt)
      requires Valid() && Consistent()
      requires selfAnswers.Keys <= QuestionCodes() && guessAnswers.Keys <= QuestionCodes()
      modifies this`answers, this`aSelfCompleted, this`aGuessCompleted, this`bSelfCompleted, this`bGuessCompleted, this`stage, this`audit
      ensures Valid() && Consistent()
      ensures stage == NextStage(old(stage), AllComplete())
      ensures role == A ==> (answers == old(answers).(aSelf := selfAnswers, aGuess := guessAnswers) &&
        bSelfCompleted == old(bSelfCompleted) && bGuessCompleted == old(bGuessCompleted))
      ensures role == B ==> (answers == old(answers).(bSelf := selfAnswers, bGuess := guessAnswers) &&
        aSelfCompleted == old(aSelfCompleted) && aGuessCompleted == old(aGuessCompleted))
      ensures receipt == Receipt(role, requested, selfAnswers, guessAnswers)
      ensures audit == old(audit) + [UpsertEvent(old(audit), role, requested, selfAnswers, guessAnswers, now)]
    {
      StoreAnswers(role, selfAnswers, guessAnswers);
      var selfDone := if role == A then aSelfCompleted else bSelfCompleted;
      var guessDone := if role == A then aGuessCompleted else bGuessCompleted;
      LogEvent("responses.upserted", ResponsesUpserted(role, requested, selfDone, guessDone, kValue, kVisible), now);
      receipt := UpsertReceipt(role, requested, IsComplete(selfAnswers), IsComplete(guessAnswers),
                               aSelfCompleted, aGuessCompleted, bSelfCompleted, bGuessCompleted);
    }

    /** The stores of upsert_responses: the caller's two answer sets are
      * replaced by the submitted dicts, then the completion flags and the
      * stage are recomputed. */
    method StoreAnswers(role: Role, selfAnswers: map<string, int>, guessAnswers: map<string, int>)
      requires Valid() && Consistent()
      requires selfAnswers.Keys <= QuestionCodes() && guessAnswers.Keys <= QuestionCodes()
      modifies this`answers, this`aSelfCompleted, this`aGuessCompleted, this`bSelfCompleted, this`bGuessCompleted, this`stage
      ensures Valid() && Consistent()
      ensures role == A ==> (answers == old(answers).(aSelf := selfAnswers, aGuess := guessAnswers) &&
        bSelfCompleted == old(bSelfCompleted) && bGuessCompleted == old(bGuessCompleted))
      ensures role == B ==> (answers == old(answers).(bSelf := selfAnswers, bGuess := guessAnswers) &&
        aSelfCompleted == old(aSelfCompleted) && aGuessCompleted == old(aGuessCompleted))
      ensures stage == NextStage(old(stage), AllComplete())
    {
      if role == A {
        answers := answers.(aSelf := selfAnswers, aGuess := guessAnswers);
      } else {
        answers := answers.(bSelf := selfAnswers, bGuess := guessAnswers);
      }
      MarkCompletion(role, selfAnswers, guessAnswers);
    }

    /** The result is stored and the session moves to stage 3. */
    method MarkComputed(res: CoupleResult, now: string)
      requires Valid()
      modifies this`result, this`stage, this`stage3Completed, this`lastComputedAt
      ensures Valid()
      ensures result == Some(res) && stage == 3 && stage3Completed && lastComputedAt == Some(now)
    {
      result := Some(res);
      stage := MaxInt(stage, 3);
      stage3Completed := true;
      lastComputedAt := Some(now);
    }

    /** _store_decision_packet: the digest is SHA-256 of the canonical
      * serialisation of the payload and nothing else. */
    method StoreDecisionPacket(outputs: CoupleResult) returns (packet: DecisionPacket)
      modifies this`packets
      ensures packet.payload == PacketPayload(answers, kThreshold, kValue, kVisible, stage1Snapshot, outputs, codeRef, ModelId)
      ensures packet.packetSha256 == sha256(canonicalJson(packet.payload))
      ensures packet.codeRef == codeRef && packet.modelId == ModelId
      ensures packets == old(packets) + [packet]
    {
      var payload := PacketPayload(answers, kThreshold, kValue, kVisible, stage1Snapshot, outputs, codeRef, ModelId);
      packet := DecisionPacket(payload, sha256(canonicalJson(payload)), codeRef, ModelId);
      packets := packets + [packet];
    }

    /** compute_result: refuses unless all four flags are set and every dict
      * holds the registry codes; then runs the couple scoring pipeline,
      * stores the result, moves the session to stage 3 and records a
      * decision packet and a "result.computed" event. */
    method ComputeResult(now: string) returns (r: Result<CoupleResult, CoupleError>)
      requires Valid()
      modifies this`stage, this`stage3Completed, this`result, this`packets, this`lastComputedAt, this`audit
      ensures Valid()
      ensures !old(AllComplete()) ==> r == Err(StageIncomplete)
      ensures old(AllComplete()) ==> r == PipelineOf(answers)
      ensures r.Err? ==> unchanged(this)
      ensures r.Ok? ==> result == Some(r.value) && stage == 3 && stage3Completed && lastComputedAt == Some(now)
      ensures r.Ok? ==> |packets| == |old(packets)| + 1 && packets[|packets| - 1].payload.outputs == r.value
      ensures r.Ok? ==> packets[|packets| - 1].packetSha256 == sha256(canonicalJson(packets[|packets| - 1].payload))
      ensures r.Ok? ==> |audit| == |old(audit)| + 1 && audit[|audit| - 1].eventType == "result.computed"
      ensures r.Ok? ==> packets == old(packets) + [old(ResultPacket(r.value))]
      ensures r.Ok? ==> audit == old(audit) + [old(ResultEvent(audit, r.value, now))]
    {
      if !(aSelfCompleted && aGuessCompleted && bSelfCompleted && bGuessCompleted) {
        return Err(StageIncomplete);
      }
      var ans := answers;
      r := RunPipeline(ans);
      if r.Err? {
        return;
      }
      RecordResult(r.value, now);
      assert answers == ans;
    }

    /** The decision packet compute_result stores for `res`: the four answer
      * dicts, the k state, the stage-1 snapshot, the outputs, the code
      * reference and the model id, with the SHA-256 of its canonical
      * serialisation. */
    function ResultPacket(res: CoupleResult): DecisionPacket
      reads this`answers, this`kValue, this`kVisible, this`stage1Snapshot
    {
      var payload := PacketPayload(answers, kThreshold, kValue, kVisible, stage1Snapshot, res, codeRef, ModelId);
      DecisionPacket(payload, sha256(canonicalJson(payload)), codeRef, ModelId)
    }

    /** The "result.computed" event: the top delta items, the gap grade, the
      * packet digest, the code reference and model id, and the k state,
      * chained to `events`. */
    function ResultEvent(events: seq<AuditEvent>, res: CoupleResult, now: string): AuditEvent
      reads this`answers, this`kValue, this`kVisible, this`stage1Snapshot
    {
      var payload := ResultComputed(res.topDeltaItems, res.gapSummary.grade, ResultPacket(res).packetSha256, codeRef, ModelId,
                                    kThreshold, kValue, kVisible);
      NextEvent(events, "result.computed", payload, eventJson("result.computed", payload, now), sha256, codeRef)
    }

    /** What compute_result stores after a successful run: the result, stage
      * 3 and its completion flag, the computation time, a decision packet,
      * and a "result.computed" event carrying the packet digest. */
    method RecordResult(res: CoupleResult, now: string)
      requires Valid()
      modifies this`stage, this`stage3Completed, this`result, this`packets, this`lastComputedAt, this`audit
      ensures Valid()
      ensures result == Some(res) && stage == 3 && stage3Completed && lastComputedAt == Some(now)
      ensures |packets| == |old(packets)| + 1 && packets[|packets| - 1].payload.outputs == res
      ensures packets[|packets| - 1].packetSha256 == sha256(canonicalJson(packets[|packets| - 1].payload))
      ensures |audit| == |old(audit)| + 1 && audit[|audit| - 1].eventType == "result.computed"
      ensures packets == old(packets) + [old(ResultPacket(res))]
      ensures audit == old(audit) + [old(ResultEvent(audit, res, now))]
    {
      MarkComputed(res, now);
      var packet := StoreDecisionPacket(res);
      LogEvent("result.computed", ResultComputed(res.topDeltaItems, res.gapSummary.grade, packet.packetSha256, codeRef, ModelId,
                                                 kThreshold, kValue, kVisible), now);
    }
  }
}
