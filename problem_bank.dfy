// The calculation problem bank (calculate-service app/problem_bank.py):
// problems read from a parsed JSON source, either a list of entries or a
// dict from category to entries, grouped into a per-category cache and an
// index by id that refresh rebuilds when the source is newer. The file's
// modification time and its parsed content are parameters.
module ProblemBank {
  import opened Wrappers
  import Text
  import OM = OrderedMaps
  import opened JsonValues

  /** The frozen Problem dataclass. */
  datatype Problem = Problem(id: string, category: string, question: string, answer: int, hint: Option<string>)

  /** ProblemDataError and its subclasses, by message. */
  datatype BankError =
    | SourceNotFound
    | InvalidFormat
    | NoEntries
    | EntriesNotList
    | UnsupportedStructure
    | NotAnObject
    | MissingCategory
    | MissingQuestionOrAnswer
    | InvalidAnswer(question: string)
    | EmptyCache
    | NoSuchProblem(id: string)

  // ---- Problem.to_dict -----------------------------------------------------

  /** to_dict: id, category and question, then the hint when there is one,
    * then the answer when asked for. */
  function ToDict(p: Problem, includeAnswer: bool): seq<(string, Json)> {
    [("id", JStr(p.id)), ("category", JStr(p.category)), ("question", JStr(p.question))]
    + (if p.hint.Some? then [("hint", JStr(p.hint.value))] else [])
    + (if includeAnswer then [("answer", JInt(p.answer))] else [])
  }

  /** The answer is shown only on request and the hint only when set; the
    * other three keys are always there. */
  lemma ToDictKeys(p: Problem, includeAnswer: bool)
    ensures Field(ToDict(p, includeAnswer), "id") == Some(JStr(p.id))
    ensures Field(ToDict(p, includeAnswer), "category") == Some(JStr(p.category))
    ensures Field(ToDict(p, includeAnswer), "question") == Some(JStr(p.question))
    ensures Field(ToDict(p, includeAnswer), "answer").Some? <==> includeAnswer
    ensures includeAnswer ==> Field(ToDict(p, includeAnswer), "answer") == Some(JInt(p.answer))
    ensures Field(ToDict(p, includeAnswer), "hint").Some? <==> p.hint.Some?
    ensures p.hint.Some? ==> Field(ToDict(p, includeAnswer), "hint") == Some(JStr(p.hint.value))
  {
    ToDictHead(p, includeAnswer);
    ToDictAnswer(p, includeAnswer);
    ToDictHint(p, includeAnswer);
  }

  lemma ToDictHead(p: Problem, includeAnswer: bool)
    ensures Field(ToDict(p, includeAnswer), "id") == Some(JStr(p.id))
    ensures Field(ToDict(p, includeAnswer), "category") == Some(JStr(p.category))
    ensures Field(ToDict(p, includeAnswer), "question") == Some(JStr(p.question))
  {
    var d := ToDict(p, includeAnswer);
    assert d[0].0 == "id" && d[1].0 == "category" && d[2].0 == "question";
  }

  lemma ToDictAnswer(p: Problem, includeAnswer: bool)
    ensures Field(ToDict(p, includeAnswer), "answer") == if includeAnswer then Some(JInt(p.answer)) else None
  {
    var d := ToDict(p, includeAnswer);
    if includeAnswer {
      assert d[|d| - 1] == ("answer", JInt(p.answer));
    }
  }

  lemma ToDictHint(p: Problem, includeAnswer: bool)
    ensures Field(ToDict(p, includeAnswer), "hint") == if p.hint.Some? then Some(JStr(p.hint.value)) else None
  {
    var d := ToDict(p, includeAnswer);
    if p.hint.Some? {
      assert d[3] == ("hint", JStr(p.hint.value));
    }
  }

  // ---- _build_problem ------------------------------------------------------

  /** `category or raw.get("category")`. */
  function Resolved(fields: seq<(string, Json)>, category: Option<Json>): Option<Json> {
    if category.Some? && Truthy(category.value) then category else Field(fields, "category")
  }

  /** raw.get(key), with JSON null read as None. */
  function Given(fields: seq<(string, Json)>, key: string): Option<Json> {
    var v := Field(fields, key);
    if v.Some? && v.value != JNull then v else None
  }

  /** _build_problem: one entry as a Problem, the category argument taking
    * precedence over the entry's own, and the id defaulting to
    * "<category>-<index>". */
  function BuildProblem(raw: Json, category: Option<Json>, index: nat): (r: Result<Problem, BankError>)
    ensures r.Ok? ==>
      raw.JObject? && Given(raw.fields, "question").Some? && Given(raw.fields, "answer").Some? &&
      AsInt(Given(raw.fields, "answer").value) == Some(r.value.answer) &&
      r.value.question == PyStr(Given(raw.fields, "question").value)
  {
    if !raw.JObject? then Err(NotAnObject)
    else
      var resolved := Resolved(raw.fields, category);
      if resolved.None? || !Truthy(resolved.value) then Err(MissingCategory)
      else
        var question := Given(raw.fields, "question");
        var answer := Given(raw.fields, "answer");
        if question.None? || answer.None? then Err(MissingQuestionOrAnswer)
        else
          match AsInt(answer.value)
          case None => Err(InvalidAnswer(PyStr(question.value)))
          case Some(value) =>
            Ok(Problem(ProblemId(raw.fields, resolved.value, index), PyStr(resolved.value), PyStr(question.value), value,
                       HintOf(raw.fields)))
  }

  /** `raw.get("id") or f"{resolved_category}-{index}"`, as a string. */
  function ProblemId(fields: seq<(string, Json)>, resolved: Json, index: nat): string {
    var id := Field(fields, "id");
    if id.Some? && Truthy(id.value) then PyStr(id.value)
    else PyStr(resolved) + "-" + Text.NatToString(index)
  }

  /** The hint as a string, None when absent or null. */
  function HintOf(fields: seq<(string, Json)>): Option<string> {
    var hint := Given(fields, "hint");
    if hint.Some? then Some(PyStr(hint.value)) else None
  }

  /** The rejections: a non-object, no usable category, a missing question
    * or answer, and an answer int() refuses, checked in that order. */
  lemma BuildProblemErrors(raw: Json, category: Option<Json>, index: nat)
    ensures BuildProblem(raw, category, index) == Err(NotAnObject) <==> !raw.JObject?
    ensures raw.JObject? ==>
      (BuildProblem(raw, category, index) == Err(MissingCategory) <==>
       !(category.Some? && Truthy(category.value)) &&
       !(Field(raw.fields, "category").Some? && Truthy(Field(raw.fields, "category").value)))
    ensures raw.JObject? && BuildProblem(raw, category, index).Ok? ==>
      Given(raw.fields, "question").Some? && Given(raw.fields, "answer").Some? &&
      AsInt(Given(raw.fields, "answer").value) == Some(BuildProblem(raw, category, index).value.answer)
  {
  }

  /** A non-empty category argument (a dict source's key) wins over the
    * entry's own category field. */
  lemma CategoryArgumentWins(raw: Json, key: string, index: nat)
    requires key != ""
    ensures BuildProblem(raw, Some(JStr(key)), index).Ok? ==> BuildProblem(raw, Some(JStr(key)), index).value.category == key
  {
  }

  /** Without a usable id of its own an entry gets "<category>-<index>". */
  lemma DefaultId(raw: Json, category: Option<Json>, index: nat)
    requires raw.JObject?
    requires Field(raw.fields, "id").None? || !Truthy(Field(raw.fields, "id").value)
    ensures BuildProblem(raw, category, index).Ok? ==>
      var p := BuildProblem(raw, category, index).value;
      p.id == p.category + "-" + Text.NatToString(index)
  {
  }

  /** A problem written out with its answer loads back as itself, given a
    * category and an id that are not empty. */
  lemma ToDictReloads(p: Problem, index: nat)
    requires p.category != "" && p.id != ""
    ensures BuildProblem(JObject(ToDict(p, true)), None, index) == Ok(p)
  {
    var d := ToDict(p, true);
    ToDictHead(p, true);
    ToDictAnswer(p, true);
    ToDictHint(p, true);
    ReadBack(d, p.id, p.hint, index);
    BuildProblemFrom(d, None, index, JStr(p.category), JStr(p.question), JInt(p.answer));
  }

  /** The id and hint lookups of _build_problem on entries whose id is a
    * non-empty string and whose hint, if any, is a string. */
  lemma ReadBack(fields: seq<(string, Json)>, id: string, hint: Option<string>, index: nat)
    requires id != "" && Field(fields, "id") == Some(JStr(id))
    requires Field(fields, "hint") == if hint.Some? then Some(JStr(hint.value)) else None
    ensures forall resolved :: ProblemId(fields, resolved, index) == id
    ensures HintOf(fields) == hint
  {
  }

  /** The successful path of _build_problem, once its three lookups are known. */
  lemma BuildProblemFrom(fields: seq<(string, Json)>, category: Option<Json>, index: nat,
                         resolved: Json, question: Json, answer: Json)
    requires Resolved(fields, category) == Some(resolved) && Truthy(resolved)
    requires Given(fields, "question") == Some(question) && Given(fields, "answer") == Some(answer)
    requires AsInt(answer).Some?
    ensures BuildProblem(JObject(fields), category, index) ==
            Ok(Problem(ProblemId(fields, resolved, index), PyStr(resolved), PyStr(question), AsInt(answer).value, HintOf(fields)))
  {
  }

  // ---- _coerce_records -----------------------------------------------------

  /** The category argument of an entry: the dict key, or for a list source
    * the entry's own category field. */
  function CategoryArg(raw: Json, key: Option<string>): Option<Json> {
    if key.Some? then Some(JStr(key.value))
    else if raw.JObject? then Field(raw.fields, "category")
    else None
  }

  /** Building entry k on its own. */
  function BuildAt<P, E>(entries: seq<Json>, key: Option<string>, start: nat,
                         build: (Json, Option<Json>, nat) -> Result<P, E>, k: nat): Result<P, E>
    requires k < |entries|
  {
    build(entries[k], CategoryArg(entries[k], key), start + k)
  }

  /** The entries built in order with 1-based indexes from start; the first
    * failing entry's error stops the run. */
  function BuildAll<P, E>(entries: seq<Json>, key: Option<string>, start: nat,
                          build: (Json, Option<Json>, nat) -> Result<P, E>): (r: Result<seq<P>, E>)
    ensures r.Ok? <==> forall k :: 0 <= k < |entries| ==> BuildAt(entries, key, start, build, k).Ok?
    ensures r.Ok? ==> |r.value| == |entries|
    ensures r.Ok? ==> forall k :: 0 <= k < |entries| ==> BuildAt(entries, key, start, build, k) == Ok(r.value[k])
    decreases |entries|
  {
    if |entries| == 0 then Ok([])
    else
      var first := BuildAt(entries, key, start, build, 0);
      if first.Err? then Err(first.error)
      else
        var tail, next := entries[1..], start + 1;
        var rest := BuildAll(tail, key, next, build);
        assert forall k :: 0 < k < |entries| ==> BuildAt(entries, key, start, build, k) == BuildAt(tail, key, next, build, k - 1);
        if rest.Err? then
          assert forall j :: 0 <= j < |tail| ==> BuildAt(tail, key, next, build, j) == BuildAt(entries, key, start, build, j + 1);
          Err(rest.error)
        else Ok([first.value] + rest.value)
  }

  /** The index of the first entry that fails to build, |entries| when
    * none does: every entry before it builds. */
  function FirstFailing<P, E>(entries: seq<Json>, key: Option<string>, start: nat,
                              build: (Json, Option<Json>, nat) -> Result<P, E>): (k: nat)
    ensures k <= |entries|
    ensures k < |entries| ==> BuildAt(entries, key, start, build, k).Err?
    ensures forall j :: 0 <= j < k ==> BuildAt(entries, key, start, build, j).Ok?
    decreases |entries|
  {
    if |entries| == 0 then 0
    else if build(entries[0], CategoryArg(entries[0], key), start).Err? then 0
    else
      var k := 1 + FirstFailing(entries[1..], key, start + 1, build);
      assert forall j :: 0 < j < |entries| ==> BuildAt(entries, key, start, build, j) == BuildAt(entries[1..], key, start + 1, build, j - 1);
      k
  }

  /** A failed run reports the error of its first failing entry. */
  lemma {:induction false} BuildAllFirstError<P, E>(entries: seq<Json>, key: Option<string>, start: nat,
                                                  build: (Json, Option<Json>, nat) -> Result<P, E>)
    requires BuildAll(entries, key, start, build).Err?
    ensures FirstFailing(entries, key, start, build) < |entries|
    ensures BuildAt(entries, key, start, build, FirstFailing(entries, key, start, build)) ==
            Err(BuildAll(entries, key, start, build).error)
    decreases |entries|
  {
    var first := build(entries[0], CategoryArg(entries[0], key), start);
    if first.Ok? {
      var rest := entries[1..];
      BuildAllTail(entries, key, start, build);
      BuildAllFirstError(rest, key, start + 1, build);
      var k := FirstFailing(rest, key, start + 1, build);
      FirstFailingTail(entries, key, start, build);
      BuildAtShift(entries, key, start, build, k);
    } else {
      assert FirstFailing(entries, key, start, build) == 0;
      assert BuildAll(entries, key, start, build) == Err(first.error);
    }
  }

  /** Entry k + 1 built from start is entry k of the tail built from
    * start + 1. */
  lemma BuildAtShift<P, E>(entries: seq<Json>, key: Option<string>, start: nat,
                           build: (Json, Option<Json>, nat) -> Result<P, E>, k: nat)
    requires k + 1 < |entries|
    ensures BuildAt(entries, key, start, build, k + 1) == BuildAt(entries[1..], key, start + 1, build, k)
  {
    assert entries[k + 1] == entries[1..][k];
  }

  /** Past a first entry that builds, a failed run fails with the tail's
    * error. */
  lemma BuildAllTail<P, E>(entries: seq<Json>, key: Option<string>, start: nat,
                           build: (Json, Option<Json>, nat) -> Result<P, E>)
    requires |entries| > 0 && build(entries[0], CategoryArg(entries[0], key), start).Ok?
    requires BuildAll(entries, key, start, build).Err?
    ensures BuildAll(entries[1..], key, start + 1, build).Err?
    ensures BuildAll(entries, key, start, build).error == BuildAll(entries[1..], key, start + 1, build).error
  {
  }

  /** Past a first entry that builds, the first failure is one further on
    * than in the tail. */
  lemma FirstFailingTail<P, E>(entries: seq<Json>, key: Option<string>, start: nat,
                               build: (Json, Option<Json>, nat) -> Result<P, E>)
    requires |entries| > 0 && build(entries[0], CategoryArg(entries[0], key), start).Ok?
    ensures FirstFailing(entries, key, start, build) == 1 + FirstFailing(entries[1..], key, start + 1, build)
  {
  }

  /** A dict source: every value must be a list, built with its key as the
    * category, keys in order. */
  function CoerceDict(fields: seq<(string, Json)>): (r: Result<seq<Problem>, BankError>)
    decreases |fields|
  {
    if |fields| == 0 then Ok([])
    else if !fields[0].1.JArray? then Err(EntriesNotList)
    else
      var first := BuildAll(fields[0].1.items, Some(fields[0].0), 1, BuildProblem);
      if first.Err? then first
      else
        var rest := CoerceDict(fields[1..]);
        if rest.Err? then rest else Ok(first.value + rest.value)
  }

  /** _coerce_records, consumed whole by list(). */
  function Coerce(parsed: Json): (r: Result<seq<Problem>, BankError>)
    ensures !parsed.JObject? && !parsed.JArray? ==> r == Err(UnsupportedStructure)
    ensures parsed.JArray? ==>
      (r.Ok? <==> forall k :: 0 <= k < |parsed.items| ==> BuildAt(parsed.items, None, 1, BuildProblem, k).Ok?)
    ensures parsed.JArray? && r.Ok? ==> |r.value| == |parsed.items|
    ensures parsed.JObject? && r.Ok? ==> |r.value| == EntryCount(parsed.fields)
  {
    match parsed
    case JObject(fields) => CoerceDictShape(fields); CoerceDict(fields)
    case JArray(items) => BuildAll(items, None, 1, BuildProblem)
    case _ => Err(UnsupportedStructure)
  }

  /** The number of entries of a dict source's lists. */
  function EntryCount(fields: seq<(string, Json)>): nat
    decreases |fields|
  {
    if |fields| == 0 then 0
    else (if fields[0].1.JArray? then |fields[0].1.items| else 0) + EntryCount(fields[1..])
  }

  /** A dict source loads only when every value is a list; it then yields
    * one problem per entry, each under one of the keys when no key is
    * empty. */
  lemma CoerceDictShape(fields: seq<(string, Json)>)
    ensures CoerceDict(fields).Ok? ==>
      (forall k :: 0 <= k < |fields| ==> fields[k].1.JArray?) &&
      |CoerceDict(fields).value| == EntryCount(fields)
    ensures CoerceDict(fields).Ok? && (forall k :: 0 <= k < |fields| ==> fields[k].0 != "") ==>
      forall p :: p in CoerceDict(fields).value ==> exists k :: 0 <= k < |fields| && p.category == fields[k].0
  {
    CoerceDictCount(fields);
    CoerceDictCategories(fields);
  }

  lemma {:induction false} CoerceDictCount(fields: seq<(string, Json)>)
    ensures CoerceDict(fields).Ok? ==>
      (forall k :: 0 <= k < |fields| ==> fields[k].1.JArray?) &&
      |CoerceDict(fields).value| == EntryCount(fields)
    decreases |fields|
  {
    if |fields| > 0 && CoerceDict(fields).Ok? {
      CoerceDictCount(fields[1..]);
      assert forall k :: 0 < k < |fields| ==> fields[k] == fields[1..][k - 1];
    }
  }

  lemma {:induction false} CoerceDictCategories(fields: seq<(string, Json)>)
    ensures CoerceDict(fields).Ok? && (forall k :: 0 <= k < |fields| ==> fields[k].0 != "") ==>
      forall p :: p in CoerceDict(fields).value ==> exists k :: 0 <= k < |fields| && p.category == fields[k].0
    decreases |fields|
  {
    if |fields| > 0 && CoerceDict(fields).Ok? && (forall k :: 0 <= k < |fields| ==> fields[k].0 != "") {
      var tail := fields[1..];
      assert forall k :: 0 <= k < |tail| ==> tail[k] == fields[k + 1];
      CoerceDictCategories(tail);
      var first := BuildAll(fields[0].1.items, Some(fields[0].0), 1, BuildProblem).value;
      var rest := CoerceDict(tail).value;
      assert CoerceDict(fields).value == first + rest;
      BuiltUnderKey(fields[0].1.items, fields[0].0);
      forall p: Problem | p in first + rest
        ensures exists k :: 0 <= k < |fields| && p.category == fields[k].0
      {
        if p in first {
          assert p.category == fields[0].0;
        } else {
          var k :| 0 <= k < |tail| && p.category == tail[k].0;
          assert p.category == fields[k + 1].0;
        }
      }
    }
  }

  /** Every problem built from a dict entry list carries the list's
    * non-empty key as its category. */
  lemma BuiltUnderKey(entries: seq<Json>, key: string)
    requires key != "" && BuildAll<Problem, BankError>(entries, Some(key), 1, BuildProblem).Ok?
    ensures forall p :: p in BuildAll<Problem, BankError>(entries, Some(key), 1, BuildProblem).value ==> p.category == key
  {
    var first := BuildAll<Problem, BankError>(entries, Some(key), 1, BuildProblem).value;
    forall p | p in first
      ensures p.category == key
    {
      var k :| 0 <= k < |first| && first[k] == p;
      CategoryArgumentWins(entries[k], key, 1 + k);
    }
  }

  /** A list source yields the k-th problem from the k-th entry with index
    * k + 1 and the entry's own category. */
  lemma ListSourceIndexes(items: seq<Json>)
    ensures Coerce(JArray(items)).Ok? ==>
      |Coerce(JArray(items)).value| == |items| &&
      forall k :: 0 <= k < |items| ==> BuildProblem(items[k], CategoryArg(items[k], None), k + 1) == Ok(Coerce(JArray(items)).value[k])
  {
  }

  // ---- the cache -----------------------------------------------------------

  function CategoryOf(p: Problem): string {
    p.category
  }

  /** problem_by_id after the given problems: later ones overwrite earlier
    * ones with the same id. */
  function IndexById(ps: seq<Problem>): map<string, Problem> {
    if |ps| == 0 then map[] else IndexById(ps[..|ps| - 1])[ps[|ps| - 1].id := ps[|ps| - 1]]
  }

  /** ps[k] is the last problem with the id. */
  predicate LastWithId(ps: seq<Problem>, id: string, k: int) {
    0 <= k < |ps| && ps[k].id == id && forall j :: k < j < |ps| ==> ps[j].id != id
  }

  /** An id is indexed iff some problem has it, and it maps to the last
    * such problem. */
  lemma {:induction false} IndexByIdLast(ps: seq<Problem>, id: string)
    ensures id in IndexById(ps) <==> exists k :: 0 <= k < |ps| && ps[k].id == id
    ensures id in IndexById(ps) ==> exists k :: LastWithId(ps, id, k) && IndexById(ps)[id] == ps[k]
  {
    if |ps| > 0 {
      var front := ps[..|ps| - 1];
      var last := ps[|ps| - 1];
      assert IndexById(ps) == IndexById(front)[last.id := last];
      if last.id == id {
        assert LastWithId(ps, id, |ps| - 1);
      } else {
        IndexByIdLast(front, id);
        assert forall k :: 0 <= k < |front| ==> front[k] == ps[k];
        if id in IndexById(ps) {
          var k :| LastWithId(front, id, k) && IndexById(front)[id] == front[k];
          assert LastWithId(ps, id, k);
        }
      }
    }
  }

  /** The loop of refresh filling the two fresh dicts. */
  method BuildIndexes(problems: seq<Problem>) returns (cache: seq<(string, seq<Problem>)>, byId: map<string, Problem>)
    ensures cache == OM.GroupBy(problems, CategoryOf)
    ensures byId == IndexById(problems)
  {
    cache := [];
    byId := map[];
    var i := 0;
    while i < |problems|
      invariant 0 <= i <= |problems|
      invariant cache == OM.GroupBy(problems[..i], CategoryOf)
      invariant byId == IndexById(problems[..i])
    {
      var problem := problems[i];
      assert problems[..i + 1][..i] == problems[..i];
      cache := OM.Put(cache, problem.category, OM.Get(cache, problem.category, []) + [problem]);
      byId := byId[problem.id := problem];
      i := i + 1;
    }
    assert problems[..|problems|] == problems;
  }

  /** sum(len(items) for items in cache.values()). */
  function TotalLength<K, T>(d: seq<(K, seq<T>)>): nat {
    if |d| == 0 then 0 else TotalLength(d[..|d| - 1]) + |d[|d| - 1].1|
  }

  lemma {:induction false} TotalLengthUpdate<K, T>(d: seq<(K, seq<T>)>, i: nat, e: (K, seq<T>))
    requires i < |d|
    ensures TotalLength(d[i := e]) + |d[i].1| == TotalLength(d) + |e.1|
  {
    var front := d[..|d| - 1];
    if i < |d| - 1 {
      assert d[i := e][..|d| - 1] == front[i := e];
      TotalLengthUpdate(front, i, e);
    } else {
      assert d[i := e][..|d| - 1] == front;
    }
  }

  /** Grouping loses and duplicates nothing: the lists hold as many problems
    * as there are problems. */
  lemma {:induction false} GroupedTotal<T>(ps: seq<T>, key: T -> string)
    ensures TotalLength(OM.GroupBy(ps, key)) == |ps|
  {
    if |ps| > 0 {
      var front := ps[..|ps| - 1];
      var x := ps[|ps| - 1];
      var d := OM.GroupBy(front, key);
      GroupedTotal(front, key);
      var v := OM.Get(d, key(x), []) + [x];
      if OM.HasKey(d, key(x)) {
        var i := OM.KeyIndex(d, key(x));
        OM.GetAt(d, i, []);
        assert OM.Put(d, key(x), v) == d[i := (key(x), v)];
        TotalLengthUpdate(d, i, (key(x), v));
      } else {
        assert OM.Put(d, key(x), v) == d + [(key(x), v)];
        assert (d + [(key(x), v)])[..|d|] == d;
      }
    }
  }

  /** The first category of the cache is the first problem's. */
  lemma {:induction false} GroupedFirst<T>(ps: seq<T>, key: T -> string)
    requires |ps| > 0
    ensures |OM.GroupBy(ps, key)| > 0 && OM.GroupBy(ps, key)[0].0 == key(ps[0])
  {
    var front := ps[..|ps| - 1];
    var x := ps[|ps| - 1];
    var d := OM.GroupBy(front, key);
    if |front| > 0 {
      GroupedFirst(front, key);
      assert front[0] == ps[0];
      var v := OM.Get(d, key(x), []) + [x];
      if OM.HasKey(d, key(x)) {
        assert OM.Keys(OM.Put(d, key(x), v))[0] == OM.Keys(d)[0];
      } else {
        assert OM.Put(d, key(x), v) == d + [(key(x), v)];
      }
    } else {
      assert d == [] && !OM.HasKey(d, key(x));
      assert ps[0] == x;
    }
  }

  /** get_problems on a cache: the category's list, otherwise the first
    * category's list, and an error on an empty cache. */
  function ProblemsFor(cache: seq<(string, seq<Problem>)>, category: string): Result<seq<Problem>, BankError> {
    if OM.HasKey(cache, category) then Ok(OM.Get(cache, category, []))
    else if |cache| == 0 then Err(EmptyCache)
    else Ok(cache[0].1)
  }

  /** On the cache of a non-empty load, a known category gets exactly its
    * problems in load order, and an unknown one the first problem's
    * category's problems. */
  lemma ProblemsForLoaded(ps: seq<Problem>, category: string)
    requires |ps| > 0
    ensures var r := ProblemsFor(OM.GroupBy(ps, CategoryOf), category);
      r.Ok? &&
      ((exists k :: 0 <= k < |ps| && ps[k].category == category) ==> r.value == OM.Having(ps, CategoryOf, category)) &&
      ((forall k :: 0 <= k < |ps| ==> ps[k].category != category) ==> r.value == OM.Having(ps, CategoryOf, ps[0].category))
  {
    var d := OM.GroupBy(ps, CategoryOf);
    OM.GroupByMembers(ps, CategoryOf, category);
    OM.GroupByMembers(ps, CategoryOf, ps[0].category);
    GroupedFirst(ps, CategoryOf);
    OM.GetAt(d, 0, []);
  }

  /** What refresh does with the source it finds. */
  datatype RefreshStep = Fail(error: BankError) | Skip | Load(problems: seq<Problem>, mtime: int)

  /** The file as refresh finds it: absent, or its modification time and
    * its content, None when it is not valid JSON. */
  datatype Source = Missing | Present(mtime: int, parsed: Option<Json>)

  /** refresh's decision: a missing file is an error even when loaded; an
    * unforced refresh of a source not newer than the last load does
    * nothing; a source that is not JSON, does not coerce or holds no
    * problem is an error. */
  function RefreshStepOf(force: bool, lastLoadedAt: Option<int>, source: Source): RefreshStep {
    match source
    case Missing => Fail(SourceNotFound)
    case Present(mtime, parsed) =>
      if !force && lastLoadedAt.Some? && mtime <= lastLoadedAt.value then Skip
      else if parsed.None? then Fail(InvalidFormat)
      else
        var problems := Coerce(parsed.value);
        if problems.Err? then Fail(problems.error)
        else if |problems.value| == 0 then Fail(NoEntries)
        else Load(problems.value, mtime)
  }

  /** A load always brings at least one problem, and only a present,
    * newer (or forced) source is loaded. */
  lemma RefreshStepRules(force: bool, lastLoadedAt: Option<int>, source: Source)
    ensures RefreshStepOf(force, lastLoadedAt, source).Load? ==>
      |RefreshStepOf(force, lastLoadedAt, source).problems| > 0 && source.Present? &&
      RefreshStepOf(force, lastLoadedAt, source).mtime == source.mtime &&
      (force || lastLoadedAt.None? || source.mtime > lastLoadedAt.value)
    ensures RefreshStepOf(force, lastLoadedAt, source).Skip? <==>
      source.Present? && !force && lastLoadedAt.Some? && source.mtime <= lastLoadedAt.value
    ensures (source.Present? && source.parsed.Some? && Coerce(source.parsed.value) == Ok([]) &&
             (force || lastLoadedAt.None? || source.mtime > lastLoadedAt.value)) ==>
      RefreshStepOf(force, lastLoadedAt, source) == Fail(NoEntries)
  {
  }

  /** What _ensure_loaded raises: nothing with a filled cache, otherwise
    * the error of the unforced refresh it runs, if that refresh fails. */
  function EnsureError(cache: seq<(string, seq<Problem>)>, lastLoadedAt: Option<int>, source: Source): Option<BankError> {
    if cache != [] then None
    else
      match RefreshStepOf(false, lastLoadedAt, source)
      case Fail(e) => Some(e)
      case _ => None
  }

  /** ProblemRepository: the per-category cache, the index by id and the
    * time of the last load. `loaded` is the problem list of that load. */
  class ProblemRepository {
    var cache: seq<(string, seq<Problem>)>
    var problemById: map<string, Problem>
    var lastLoadedAt: Option<int>
    ghost var loaded: seq<Problem>

    ghost predicate Valid()
      reads this
    {
      cache == OM.GroupBy(loaded, CategoryOf) && problemById == IndexById(loaded) &&
      (lastLoadedAt.None? ==> loaded == []) && (lastLoadedAt.Some? ==> loaded != [])
    }

    constructor()
      ensures Valid() && cache == [] && problemById == map[] && lastLoadedAt.None?
    {
      cache := [];
      problemById := map[];
      lastLoadedAt := None;
      loaded := [];
    }

    /** refresh: on a load, both dicts are rebuilt from the new problems and
      * the load time is the source's; on an error or a skip nothing
      * changes. */
    method Refresh(force: bool, source: Source) returns (err: Option<BankError>)
      requires Valid()
      modifies this
      ensures Valid()
      ensures var step := RefreshStepOf(force, old(lastLoadedAt), source);
        match step
        case Fail(e) => err == Some(e) && unchanged(this)
        case Skip => err.None? && unchanged(this)
        case Load(ps, mtime) =>
          err.None? && loaded == ps && cache == OM.GroupBy(ps, CategoryOf) &&
          problemById == IndexById(ps) && lastLoadedAt == Some(mtime)
    {
      if source.Missing? {
        return Some(SourceNotFound);
      }
      var mtime := source.mtime;
      if !force && lastLoadedAt.Some? {
        if mtime <= lastLoadedAt.value {
          return None;
        }
      }
      if source.parsed.None? {
        return Some(InvalidFormat);
      }
      var problems := Coerce(source.parsed.value);
      if problems.Err? {
        return Some(problems.error);
      }
      if |problems.value| == 0 {
        return Some(NoEntries);
      }
      Install(problems.value, mtime);
      err := None;
    }

    /** The load half of refresh: both dicts rebuilt from the problems and
      * the load time recorded. */
    method Install(problems: seq<Problem>, mtime: int)
      requires problems != []
      modifies this
      ensures Valid() && loaded == problems && lastLoadedAt == Some(mtime)
      ensures cache == OM.GroupBy(problems, CategoryOf) && problemById == IndexById(problems)
    {
      var newCache, newById := BuildIndexes(problems);
      cache := newCache;
      problemById := newById;
      lastLoadedAt := Some(mtime);
      loaded := problems;
    }

    /** _ensure_loaded: an unforced refresh when the cache is empty. */
    method EnsureLoaded(source: Source) returns (err: Option<BankError>)
      requires Valid()
      modifies this
      ensures Valid()
      ensures err == EnsureError(old(cache), old(lastLoadedAt), source)
      ensures old(cache) != [] ==> unchanged(this)
      ensures err.None? ==> loaded != []
      ensures err.Some? ==> unchanged(this)
    {
      if cache == [] {
        if lastLoadedAt.Some? {
          GroupedFirst(loaded, CategoryOf);
        }
        err := Refresh(false, source);
      } else {
        err := None;
      }
    }

    /** get_problems: the category's problems in load order, or the first
      * category's for an unknown one. */
    method GetProblems(category: string, source: Source) returns (r: Result<seq<Problem>, BankError>)
      requires Valid()
      modifies this
      ensures Valid()
      ensures old(cache) != [] ==> unchanged(this)
      ensures r.Err? ==> unchanged(this)
      ensures r.Ok? <==> EnsureError(old(cache), old(lastLoadedAt), source).None?
      ensures r.Err? ==> r.error == EnsureError(old(cache), old(lastLoadedAt), source).value
      ensures r.Ok? ==> loaded != []
      ensures r.Ok? && (exists k :: 0 <= k < |loaded| && loaded[k].category == category) ==>
        r.value == OM.Having(loaded, CategoryOf, category)
      ensures r.Ok? && (forall k :: 0 <= k < |loaded| ==> loaded[k].category != category) ==>
        r.value == OM.Having(loaded, CategoryOf, loaded[0].category)
    {
      var err := EnsureLoaded(source);
      if err.Some? {
        return Err(err.value);
      }
      ProblemsForLoaded(loaded, category);
      r := ProblemsFor(cache, category);
    }

    /** get_problem: the last loaded problem with that id, or an error. */
    method GetProblem(id: string, source: Source) returns (r: Result<Problem, BankError>)
      requires Valid()
      modifies this
      ensures Valid()
      ensures old(cache) != [] ==> unchanged(this)
      ensures r.Ok? <==> EnsureError(old(cache), old(lastLoadedAt), source).None? &&
                         exists k :: 0 <= k < |loaded| && loaded[k].id == id
      ensures r.Ok? ==> exists k :: LastWithId(loaded, id, k) && loaded[k] == r.value
      ensures r.Err? && EnsureError(old(cache), old(lastLoadedAt), source).Some? ==>
        r.error == EnsureError(old(cache), old(lastLoadedAt), source).value && unchanged(this)
      ensures r.Err? && EnsureError(old(cache), old(lastLoadedAt), source).None? ==> r.error == NoSuchProblem(id)
    {
      var err := EnsureLoaded(source);
      if err.Some? {
        return Err(err.value);
      }
      IndexByIdLast(loaded, id);
      if id in problemById {
        r := Ok(problemById[id]);
      } else {
        r := Err(NoSuchProblem(id));
      }
    }

    /** __len__: the number of loaded problems. */
    method Length(source: Source) returns (r: Result<nat, BankError>)
      requires Valid()
      modifies this
      ensures Valid()
      ensures old(cache) != [] ==> unchanged(this)
      ensures r.Ok? <==> EnsureError(old(cache), old(lastLoadedAt), source).None?
      ensures r.Ok? ==> r.value == |loaded| && r.value > 0
      ensures r.Err? ==> r.error == EnsureError(old(cache), old(lastLoadedAt), source).value && unchanged(this)
    {
      var err := EnsureLoaded(source);
      if err.Some? {
        return Err(err.value);
      }
      GroupedTotal(loaded, CategoryOf);
      r := Ok(TotalLength(cache));
    }

    /** list_categories: the cache's keys, which are exactly the loaded
      * problems' categories. */
    method ListCategories(source: Source) returns (r: Result<seq<string>, BankError>)
      requires Valid()
      modifies this
      ensures Valid()
      ensures old(cache) != [] ==> unchanged(this)
      ensures r.Ok? <==> EnsureError(old(cache), old(lastLoadedAt), source).None?
      ensures r.Err? ==> r.error == EnsureError(old(cache), old(lastLoadedAt), source).value && unchanged(this)
      ensures r.Ok? ==> forall c :: c in r.value <==> exists k :: 0 <= k < |loaded| && loaded[k].category == c
    {
      var err := EnsureLoaded(source);
      if err.Some? {
        return Err(err.value);
      }
      r := Ok(OM.Keys(cache));
      CategoryKeys(loaded);
    }
  }

  /** The keys of the grouping by category are exactly the problems'
    * categories. */
  lemma CategoryKeys(problems: seq<Problem>)
    ensures forall c :: c in OM.Keys(OM.GroupBy(problems, CategoryOf)) <==>
      exists k :: 0 <= k < |problems| && problems[k].category == c
  {
    forall c
      ensures c in OM.Keys(OM.GroupBy(problems, CategoryOf)) <==>
        exists k :: 0 <= k < |problems| && problems[k].category == c
    {
      OM.GroupKeysMember(problems, CategoryOf, c);
      if exists k :: 0 <= k < |problems| && problems[k].category == c {
        var k :| 0 <= k < |problems| && problems[k].category == c;
        assert CategoryOf(problems[k]) == c;
      }
    }
  }


}
