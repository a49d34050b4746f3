// RFC 9457 problem-details bodies (app/utils/problem_details.py): the body
// built for a raised problem, an HTTP error, a validation failure and an
// internal error, and the grouping of validation errors by field path.
// The request path and HTTPStatus's phrase table are parameters.
module ProblemDetails {
  import opened Wrappers
  import Text
  import OrderedMaps

  /** PROBLEM_TYPE_BASE. */
  const ProblemTypeBase: string := "https://api.360me.app/errors"

  /** The errors member: field path to messages, in insertion order. */
  type FieldErrors = seq<(string, seq<string>)>

  /** A component of a validation error's loc: a field name or a list index. */
  datatype LocPart = Name(name: string) | Index(index: int)

  /** str(part). */
  function PartString(p: LocPart): string {
    match p
    case Name(n) => n
    case Index(i) => Text.IntToString(i)
  }

  /** The loc segments that only say where the value came from. */
  predicate IsSource(p: LocPart) {
    p.Name? && (p.name == "body" || p.name == "query" || p.name == "path")
  }

  /** One entry of exc.errors(): the "loc" and "msg" keys, None when absent. */
  datatype ValidationError = ValidationError(loc: Option<seq<LocPart>>, msg: Option<string>)

  /** The loc parts that are not source segments, in order. */
  function Kept(loc: seq<LocPart>): (r: seq<LocPart>)
    ensures forall k :: 0 <= k < |r| ==> !IsSource(r[k]) && r[k] in loc
    ensures (forall k :: 0 <= k < |loc| ==> !IsSource(loc[k])) ==> r == loc
  {
    if |loc| == 0 then []
    else
      var front := Kept(loc[..|loc| - 1]);
      var last := loc[|loc| - 1];
      assert forall p :: p in loc[..|loc| - 1] ==> p in loc;
      assert (forall k :: 0 <= k < |loc| ==> !IsSource(loc[k])) ==> loc[..|loc| - 1] + [last] == loc;
      if IsSource(last) then front else front + [last]
  }

  function Strings(parts: seq<LocPart>): (r: seq<string>)
    ensures |r| == |parts| && forall k :: 0 <= k < |parts| ==> r[k] == PartString(parts[k])
  {
    seq(|parts|, k requires 0 <= k < |parts| => PartString(parts[k]))
  }

  /** The field path of a loc: the non-source parts joined with "."; if
    * that is empty, the whole loc joined; if that is empty too,
    * "non_field_errors". */
  function PathOf(loc: seq<LocPart>): (path: string)
    ensures |path| > 0
  {
    var kept := Text.Join(".", Strings(Kept(loc)));
    if kept != "" then kept
    else
      var full := Text.Join(".", Strings(loc));
      if full != "" then full else "non_field_errors"
  }

  /** error.get("loc", []). */
  function LocOf(e: ValidationError): seq<LocPart> {
    match e.loc
    case None => []
    case Some(l) => l
  }

  /** error.get("msg", "Invalid value"). */
  function MessageOf(e: ValidationError): string {
    match e.msg
    case None => "Invalid value"
    case Some(m) => m
  }

  function ErrorPath(e: ValidationError): string {
    PathOf(LocOf(e))
  }

  /** The mapping after the given errors: each message appended to its
    * path's list, which setdefault creates on the path's first error. */
  function Mapped(errors: seq<ValidationError>): (d: FieldErrors)
    ensures OrderedMaps.DistinctKeys(d)
  {
    if |errors| == 0 then []
    else
      var front := Mapped(errors[..|errors| - 1]);
      var e := errors[|errors| - 1];
      OrderedMaps.Put(front, ErrorPath(e), OrderedMaps.Get(front, ErrorPath(e), []) + [MessageOf(e)])
  }

  /** _map_validation_errors: the loop filling `mapped`. */
  method MapValidationErrors(errors: seq<ValidationError>) returns (mapped: FieldErrors)
    ensures mapped == Mapped(errors)
  {
    mapped := [];
    var i := 0;
    while i < |errors|
      invariant 0 <= i <= |errors|
      invariant mapped == Mapped(errors[..i])
    {
      var error := errors[i];
      var path := PathOf(LocOf(error));
      var message := MessageOf(error);
      assert errors[..i + 1][..i] == errors[..i];
      mapped := OrderedMaps.Put(mapped, path, OrderedMaps.Get(mapped, path, []) + [message]);
      i := i + 1;
    }
    assert errors[..|errors|] == errors;
  }

  /** The messages of the errors whose path is p, in input order. */
  function MessagesFor(errors: seq<ValidationError>, p: string): seq<string> {
    if |errors| == 0 then []
    else
      var front := MessagesFor(errors[..|errors| - 1], p);
      var e := errors[|errors| - 1];
      if ErrorPath(e) == p then front + [MessageOf(e)] else front
  }

  /** Some error has path p. */
  predicate HasPath(errors: seq<ValidationError>, p: string) {
    exists i :: 0 <= i < |errors| && ErrorPath(errors[i]) == p
  }

  /** Each path's list holds exactly that path's messages, in input order. */
  lemma {:induction false} MappedMessages(errors: seq<ValidationError>, p: string)
    ensures OrderedMaps.Get(Mapped(errors), p, []) == MessagesFor(errors, p)
  {
    if |errors| > 0 {
      var front := errors[..|errors| - 1];
      var e := errors[|errors| - 1];
      var d := Mapped(front);
      MappedMessages(front, p);
      OrderedMaps.GetPut(d, ErrorPath(e), OrderedMaps.Get(d, ErrorPath(e), []) + [MessageOf(e)], p, []);
    }
  }

  /** A path is a key iff some error has it. */
  lemma {:induction false} MappedKeys(errors: seq<ValidationError>, p: string)
    ensures OrderedMaps.HasKey(Mapped(errors), p) <==> HasPath(errors, p)
  {
    if |errors| > 0 {
      var front := errors[..|errors| - 1];
      var e := errors[|errors| - 1];
      var d := Mapped(front);
      MappedKeys(front, p);
      OrderedMaps.HasKeyPut(d, ErrorPath(e), OrderedMaps.Get(d, ErrorPath(e), []) + [MessageOf(e)], p);
      OrderedMaps.SomeKeySnoc(errors, front, ErrorPath, p);
    }
  }

  /** The mapping groups the messages by path: a path is a key iff some
    * error has it, and its list holds exactly that path's messages, in
    * input order. */
  lemma MappedGroups(errors: seq<ValidationError>, p: string)
    ensures OrderedMaps.Get(Mapped(errors), p, []) == MessagesFor(errors, p)
    ensures OrderedMaps.HasKey(Mapped(errors), p) <==> exists i :: 0 <= i < |errors| && ErrorPath(errors[i]) == p
  {
    MappedMessages(errors, p);
    MappedKeys(errors, p);
  }

  /** The mapping is empty exactly when there are no errors. */
  lemma MappedEmpty(errors: seq<ValidationError>)
    ensures Mapped(errors) == [] <==> |errors| == 0
  {
    if |errors| > 0 {
      var e := errors[|errors| - 1];
      assert OrderedMaps.HasKey(Mapped(errors), ErrorPath(e));
    }
  }

  /** Where the value came from does not change the path: a loc behind a
    * "body", "query" or "path" segment maps like the loc alone. */
  lemma {:induction false} SourceSegmentIgnored(source: string, loc: seq<LocPart>)
    requires source == "body" || source == "query" || source == "path"
    requires Text.Join(".", Strings(Kept(loc))) != ""
    ensures PathOf([Name(source)] + loc) == PathOf(loc)
  {
    assert Kept([Name(source)] + loc) == Kept(loc) by {
      KeptPrefix(Name(source), loc);
    }
  }

  lemma {:induction false} KeptPrefix(p: LocPart, loc: seq<LocPart>)
    requires IsSource(p)
    ensures Kept([p] + loc) == Kept(loc)
  {
    if |loc| > 0 {
      var full, front, last := [p] + loc, loc[..|loc| - 1], loc[|loc| - 1];
      assert full[..|full| - 1] == [p] + front;
      assert full[|full| - 1] == last;
      KeptPrefix(p, front);
      assert Kept(full) == if IsSource(last) then Kept(front) else Kept(front) + [last];
    } else {
      assert [p] + loc == [p];
      assert [p][..0] == [];
    }
  }

  /** The validation test's error: a missing "mode" field of the body is
    * reported under "mode". */
  lemma MissingModeField()
    ensures Mapped([ValidationError(Some([Name("body"), Name("mode")]), Some("Field required"))]) ==
      [("mode", ["Field required"])]
  {
    var loc := [Name("body"), Name("mode")];
    assert loc[..1] == [Name("body")];
    assert Kept(loc[..1]) == [];
    assert Kept(loc) == [Name("mode")];
    assert Strings([Name("mode")]) == ["mode"];
    assert PathOf(loc) == "mode";
    var e := ValidationError(Some(loc), Some("Field required"));
    assert [e][..0] == [];
    assert ErrorPath(e) == "mode" && MessageOf(e) == "Field required";
    var empty: FieldErrors := [];
    assert OrderedMaps.Get(empty, "mode", []) == [];
    assert !OrderedMaps.HasKey(empty, "mode");
    assert Mapped([e][..0]) == empty;
    var fieldRequired: seq<string> := ["Field required"];
    var errs := [e];
    assert errs[|errs| - 1] == e && errs[..|errs| - 1] == [];
    assert Mapped(errs) == OrderedMaps.Put(Mapped([]), ErrorPath(e), OrderedMaps.Get(Mapped([]), ErrorPath(e), []) + [MessageOf(e)]);
    assert OrderedMaps.Get(Mapped([]), ErrorPath(e), []) + [MessageOf(e)] == fieldRequired;
    assert Mapped([e]) == OrderedMaps.Put(empty, "mode", fieldRequired);
    assert OrderedMaps.Put(empty, "mode", fieldRequired) == empty + [("mode", fieldRequired)];
  }

  /** An error whose loc holds only source segments falls back to the full
    * loc, and one without any loc to "non_field_errors". */
  lemma PathFallbacks()
    ensures PathOf([Name("body")]) == "body"
    ensures PathOf([]) == "non_field_errors"
  {
    assert [Name("body")][..0] == [];
  }

  /** HTTPException.detail: a string, None, or any other object with its
    * str() form. */
  datatype Detail = Plain(text: string) | NoDetail | Other(repr: string)

  /** _normalize_detail. */
  function NormalizeDetail(detail: Detail, fallback: string): (s: string)
    ensures detail.Plain? ==> s == detail.text
    ensures detail.NoDetail? ==> s == fallback
    ensures detail.Other? ==> s == detail.repr
  {
    match detail
    case Plain(t) => t
    case NoDetail => fallback
    case Other(r) => r
  }

  /** _default_title: the standard reason phrase, or "Error" for a status
    * HTTPStatus does not know. */
  function DefaultTitle(status: int, phrases: map<int, string>): (title: string)
    ensures status in phrases ==> title == phrases[status]
    ensures status !in phrases ==> title == "Error"
  {
    if status in phrases then phrases[status] else "Error"
  }

  /** The JSON body of a problem response. */
  datatype Problem = Problem(kind: string, title: string, status: int, detail: string, instance: string,
                             errors: Option<FieldErrors>)

  /** problem_response: errors appear only when there are some. */
  function ProblemResponse(path: string, status: int, title: string, detail: string, suffix: string,
                           errors: Option<FieldErrors>): Problem {
    Problem(ProblemTypeBase + "/" + suffix, title, status, detail, path,
            if errors.Some? && errors.value != [] then errors else None)
  }

  /** The suffix after PROBLEM_TYPE_BASE + "/", when the type has that
    * prefix. */
  function SuffixOf(kind: string): Option<string> {
    var base := ProblemTypeBase + "/";
    if |kind| >= |base| && kind[..|base|] == base then Some(kind[|base|..]) else None
  }

  /** The body carries its arguments unchanged, the suffix can be read back
    * from the type, and the errors member is present exactly when there is
    * a non-empty mapping. */
  lemma ProblemResponseShape(path: string, status: int, title: string, detail: string, suffix: string,
                             errors: Option<FieldErrors>)
    ensures var body := ProblemResponse(path, status, title, detail, suffix, errors);
      SuffixOf(body.kind) == Some(suffix) &&
      body.status == status && body.title == title && body.detail == detail && body.instance == path &&
      (body.errors.Some? <==> errors.Some? && |errors.value| > 0) &&
      (body.errors.Some? ==> body.errors == errors)
  {
    var base := ProblemTypeBase + "/";
    var kind := base + suffix;
    assert kind[..|base|] == base && kind[|base|..] == suffix;
  }

  /** ProblemDetailsException: status, title, detail, type suffix, errors
    * and instance. */
  datatype ProblemException = ProblemException(status: int, title: string, detail: string, suffix: string,
                                               errors: Option<FieldErrors>, instance: Option<string>)

  /** from_exception: the exception's own instance unless it is None or
    * empty, then the request path. */
  function FromException(path: string, exc: ProblemException): (body: Problem)
    ensures body.instance == (if exc.instance.Some? && exc.instance.value != "" then exc.instance.value else path)
  {
    var instance := if exc.instance.Some? && exc.instance.value != "" then exc.instance.value else path;
    ProblemResponse(instance, exc.status, exc.title, exc.detail, exc.suffix, exc.errors)
  }

  /** from_http_exception: the standard title, the detail or else the
    * title, and the suffix "http-<status>". */
  function FromHttpException(path: string, status: int, detail: Detail, phrases: map<int, string>): (r: Problem)
    ensures r.status == status && r.instance == path && r.errors.None?
    ensures r.title == (if status in phrases then phrases[status] else "Error")
    ensures detail.NoDetail? ==> r.detail == r.title
    ensures detail.Plain? ==> r.detail == detail.text
    ensures SuffixOf(r.kind) == Some("http-" + Text.IntToString(status))
  {
    ProblemResponseShape(path, status, DefaultTitle(status, phrases), NormalizeDetail(detail, DefaultTitle(status, phrases)),
                         "http-" + Text.IntToString(status), None);
    var title := DefaultTitle(status, phrases);
    ProblemResponse(path, status, title, NormalizeDetail(detail, title), "http-" + Text.IntToString(status), None)
  }

  /** The status can be read back from the type of an HTTP error body, and
    * such a body never has an errors member. */
  lemma HttpSuffixRoundTrip(path: string, status: int, detail: Detail, phrases: map<int, string>)
    ensures var body := FromHttpException(path, status, detail, phrases);
      var suffix := SuffixOf(body.kind);
      suffix.Some? && |suffix.value| >= 5 && suffix.value[..5] == "http-" &&
      Text.ParseInt(suffix.value[5..]) == Some(status) &&
      body.status == status && body.errors.None?
  {
    var title := DefaultTitle(status, phrases);
    var suffix := "http-" + Text.IntToString(status);
    ProblemResponseShape(path, status, title, NormalizeDetail(detail, title), suffix, None);
    assert suffix[..5] == "http-" && suffix[5..] == Text.IntToString(status);
    Text.ParseIntToString(status);
  }

  /** The not-found test: a 404 without detail has title and detail
    * "Not Found" and a type ending in "/http-404". */
  lemma NotFoundBody(path: string, phrases: map<int, string>)
    requires 404 in phrases && phrases[404] == "Not Found"
    ensures var body := FromHttpException(path, 404, NoDetail, phrases);
      body.status == 404 && body.title == "Not Found" && body.detail == "Not Found" &&
      body.instance == path && SuffixOf(body.kind) == Some("http-404")
  {
    assert Text.NatToString(40) == "40";
    assert Text.IntToString(404) == "404";
    var s := "http-404";
    assert "http-" + Text.IntToString(404) == s;
    ProblemResponseShape(path, 404, "Not Found", "Not Found", s, None);
  }

  const ValidationDetail: string := "요청 본문을 검증할 수 없습니다. 입력 값을 확인해주세요."
  const InternalDetail: string := "예상치 못한 오류가 발생했습니다. 잠시 후 다시 시도해주세요."

  /** from_validation_error. */
  function FromValidationError(path: string, errors: seq<ValidationError>): (r: Problem)
    ensures r.status == 422 && r.instance == path && SuffixOf(r.kind) == Some("validation")
    ensures r.errors.Some? <==> |errors| > 0
  {
    MappedEmpty(errors);
    ProblemResponseShape(path, 422, "Validation Failed", ValidationDetail, "validation", Some(Mapped(errors)));
    ProblemResponse(path, 422, "Validation Failed", ValidationDetail, "validation", Some(Mapped(errors)))
  }

  /** A validation failure is a 422 whose errors member is present exactly
    * when there were errors and then lists each path's messages. */
  lemma ValidationBody(path: string, errors: seq<ValidationError>)
    ensures var body := FromValidationError(path, errors);
      body.status == 422 && body.title == "Validation Failed" && SuffixOf(body.kind) == Some("validation") &&
      (body.errors.Some? <==> |errors| > 0) &&
      (body.errors.Some? ==> forall p :: OrderedMaps.Get(body.errors.value, p, []) == MessagesFor(errors, p))
  {
    MappedEmpty(errors);
    ProblemResponseShape(path, 422, "Validation Failed", ValidationDetail, "validation", Some(Mapped(errors)));
    forall p ensures OrderedMaps.Get(Mapped(errors), p, []) == MessagesFor(errors, p) {
      MappedGroups(errors, p);
    }
  }

  /** internal_server_error. */
  function InternalServerError(path: string): (body: Problem)
    ensures body.status == 500 && body.errors.None? && SuffixOf(body.kind) == Some("internal")
  {
    ProblemResponseShape(path, 500, "Internal Server Error", InternalDetail, "internal", None);
    ProblemResponse(path, 500, "Internal Server Error", InternalDetail, "internal", None)
  }
}
