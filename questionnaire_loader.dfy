// The questionnaire seed loader (app/data/questionnaire_loader.py): validate
// the question records, give each a numeric id derived from its code, tag it
// with its context, reject repeated codes, and order the seeds by context and
// id.
module QuestionnaireLoader {
  import opened Wrappers
  import opened Schemas
  import Text
  import Sorting

  /** One question record as it appears in the questionnaire file. */
  datatype RawRecord = RawRecord(code: string, dim: string, sign: int, promptSelf: string,
                                 promptOther: string, theme: string, scenario: string)

  /** A record after QuestionRecordModel's validators: dim is an axis. */
  datatype Record = Record(code: string, dim: Dim, sign: int, promptSelf: string,
                           promptOther: string, theme: string, scenario: string)

  /** QuestionSeed. */
  datatype QuestionSeed = QuestionSeed(id: int, code: string, dim: Dim, sign: int, context: string,
                                       promptSelf: string, promptOther: string, theme: string, scenario: string)

  /** The ValueError each check raises, with what it names. */
  datatype LoaderError =
    | EmptyCode
    | UnsupportedDimension(value: string)
    | BadSign(sign: int)
    | NonNumericSuffix(code: string)
    | NonPositiveOrdinal(code: string)
    | UnsupportedPrefix(prefix: string)
    | DuplicateCode(code: string)
    | UnsupportedMode(mode: string)
    | UnsupportedContext(context: string)

  /** MODE_CONTEXT_MAP: the context each mode key of the file stands for. */
  const ModeContextMap: map<string, string> :=
    map["romance" := "couple", "friend" := "friend", "work" := "work", "partner" := "partner", "family" := "family"]

  /** PREFIX_BASE: the id range each code prefix starts. */
  const PrefixBase: map<string, int> :=
    map["C" := 0, "R" := 400, "F" := 800, "W" := 1200, "P" := 1600, "G" := 2000]

  /** DIMENSION_OFFSETS. */
  function DimOffset(d: Dim): int {
    match d
    case EI => 0
    case SN => 100
    case TF => 200
    case JP => 300
  }

  /** CONTEXT_SORT_ORDER. */
  const ContextSortOrder: map<string, int> :=
    map["common" := 0, "couple" := 1, "friend" := 2, "work" := 3, "partner" := 4, "family" := 5]

  predicate ValidRecord(r: Record) {
    |r.code| > 0 && (r.sign == -1 || r.sign == 1)
  }

  /** The field constraints and validators of QuestionRecordModel: a non-empty
    * id, a dim that upper-cases to an axis, and a sign of -1 or 1. */
  function ValidateRecord(raw: RawRecord): (r: Result<Record, LoaderError>)
    ensures r.Ok? <==> |raw.code| > 0 && Text.Upper(raw.dim) in {"EI", "SN", "TF", "JP"} &&
                       (raw.sign == -1 || raw.sign == 1)
    ensures r.Ok? ==>
      ValidRecord(r.value) && DimName(r.value.dim) == Text.Upper(raw.dim) &&
      r.value == Record(raw.code, r.value.dim, raw.sign, raw.promptSelf, raw.promptOther, raw.theme, raw.scenario)
  {
    if |raw.code| == 0 then Err(EmptyCode)
    else match ValidateDim(raw.dim)
      case None => Err(UnsupportedDimension(raw.dim))
      case Some(d) =>
        if ValidateSign(raw.sign).None? then Err(BadSign(raw.sign))
        else Ok(Record(raw.code, d, raw.sign, raw.promptSelf, raw.promptOther, raw.theme, raw.scenario))
  }

  /** A list validates when each of its entries does; the first failure is
    * reported. */
  function ValidateAll<R, V>(raws: seq<R>, validate: R -> Result<V, LoaderError>): (r: Result<seq<V>, LoaderError>)
    ensures r.Ok? <==> forall i :: 0 <= i < |raws| ==> validate(raws[i]).Ok?
    ensures r.Ok? ==> |r.value| == |raws| && forall i :: 0 <= i < |raws| ==> r.value[i] == validate(raws[i]).value
  {
    if |raws| == 0 then Ok([]) else
    var front := ValidateAll(raws[..|raws| - 1], validate);
    var last := validate(raws[|raws| - 1]);
    if front.Err? then front
    else if last.Err? then Err(last.error)
    else Ok(front.value + [last.value])
  }

  // ---------------------------------------------------------------- ids

  /** The last "-"-separated segment of a code: code.split("-")[-1]. */
  function Tail(code: string): string {
    var parts := Text.SplitOn(code, '-');
    parts[|parts| - 1]
  }

  /** The part before the first "-": code.split("-", 1)[0]. */
  function Prefix(code: string): string {
    Text.SplitOn(code, '-')[0]
  }

  /** _extract_ordinal: the last segment as a positive int. */
  function ExtractOrdinal(code: string): (r: Result<int, LoaderError>)
    ensures r.Ok? ==> r.value > 0
    ensures r.Ok? <==> Text.ParseInt(Tail(code)).Some? && Text.ParseInt(Tail(code)).value > 0
    ensures r.Ok? ==> r.value == Text.ParseInt(Tail(code)).value
    ensures Text.ParseInt(Tail(code)).None? ==> r == Err(NonNumericSuffix(code))
    ensures Text.ParseInt(Tail(code)).Some? && Text.ParseInt(Tail(code)).value <= 0 ==> r == Err(NonPositiveOrdinal(code))
  {
    match Text.ParseInt(Tail(code))
    case None => Err(NonNumericSuffix(code))
    case Some(n) => if n <= 0 then Err(NonPositiveOrdinal(code)) else Ok(n)
  }

  /** _compute_numeric_id: the prefix's base plus the axis offset plus the
    * ordinal. */
  function NumericId(code: string, dim: Dim, ordinal: int): (r: Result<int, LoaderError>)
  {
    var prefix := Prefix(code);
    if prefix !in PrefixBase then Err(UnsupportedPrefix(prefix))
    else Ok(PrefixBase[prefix] + DimOffset(dim) + ordinal)
  }

  /** A code written the documented way: prefix, axis and ordinal joined by
    * dashes. */
  function CodeOf(prefix: string, middle: string, ordinal: nat): string {
    prefix + "-" + middle + "-" + Text.NatToString(ordinal)
  }

  lemma SplitAfter(a: string, rest: string)
    requires '-' !in a
    ensures Text.SplitOn(a + "-" + rest, '-') == [a] + Text.SplitOn(rest, '-')
  {
    var s := a + "-" + rest;
    assert s[|a|] == '-' && s[..|a|] == a && s[|a| + 1..] == rest;
    IndexAfter(a, rest);
  }

  lemma IndexAfter(a: string, rest: string)
    requires '-' !in a
    ensures '-' in a + "-" + rest && Text.IndexOf(a + "-" + rest, '-') == |a|
  {
    var s := a + "-" + rest;
    assert s[|a|] == '-' && s[..|a|] == a;
  }

  /** Reading a well-formed code back gives its prefix and its ordinal. */
  lemma CodeRoundTrip(prefix: string, middle: string, ordinal: nat)
    requires '-' !in prefix && '-' !in middle && ordinal > 0
    ensures Prefix(CodeOf(prefix, middle, ordinal)) == prefix
    ensures ExtractOrdinal(CodeOf(prefix, middle, ordinal)) == Ok(ordinal)
  {
    var digits := Text.NatToString(ordinal);
    assert '-' !in digits;
    var code := CodeOf(prefix, middle, ordinal);
    assert code == prefix + "-" + (middle + "-" + digits);
    SplitAfter(prefix, middle + "-" + digits);
    SplitAfter(middle, digits);
    assert Text.SplitOn(digits, '-') == [digits];
    assert Tail(code) == digits;
    Text.ParseIntToString(ordinal);
  }

  /** With ordinals below 100 an id names one (prefix, axis, ordinal): ids
    * of codes that differ in any of the three never clash. */
  lemma IdDeterminesParts(p1: string, d1: Dim, o1: int, p2: string, d2: Dim, o2: int)
    requires p1 in PrefixBase && p2 in PrefixBase && 1 <= o1 <= 99 && 1 <= o2 <= 99
    requires PrefixBase[p1] + DimOffset(d1) + o1 == PrefixBase[p2] + DimOffset(d2) + o2
    ensures p1 == p2 && d1 == d2 && o1 == o2
  {
    assert PrefixBase[p1] / 400 == PrefixBase[p2] / 400;
    assert forall p :: p in PrefixBase ==> PrefixBase[p] % 400 == 0 && (PrefixBase[p] / 400) * 400 == PrefixBase[p];
  }

  // ---------------------------------------------------------------- records

  /** What the generator meets in order: a record with its context, or a
    * mode key it does not know. */
  datatype Item = Emit(record: Record, context: string) | BadMode(mode: string)

  /** The records of one list, all tagged with context. */
  function Tagged(records: seq<Record>, context: string): (items: seq<Item>)
    ensures |items| == |records|
    ensures forall i :: 0 <= i < |records| ==> items[i] == Emit(records[i], context)
  {
    seq(|records|, i requires 0 <= i < |records| => Emit(records[i], context))
  }

  /** The items of the modes dict, in its order; an unknown mode key ends the
    * walk. */
  function ModeItems(modes: seq<(string, seq<Record>)>, table: map<string, string>): seq<Item> {
    if |modes| == 0 then [] else ModeItems(modes[..|modes| - 1], table) + ModeTail(modes[|modes| - 1], table)
  }

  /** The items of one mode entry: its records under the mapped context, or
    * the unknown key. */
  function ModeTail(mode: (string, seq<Record>), table: map<string, string>): seq<Item> {
    if mode.0 in table then Tagged(mode.1, table[mode.0]) else [BadMode(mode.0)]
  }

  /** The common records first, then every mode's records. */
  function Items(common: seq<Record>, modes: seq<(string, seq<Record>)>): seq<Item> {
    Tagged(common, "common") + ModeItems(modes, ModeContextMap)
  }

  /** The generator's state: the seeds emitted and seen_codes. */
  datatype Emitted = Emitted(seeds: seq<QuestionSeed>, seen: set<string>)

  function SeedOf(r: Record, context: string, id: int): QuestionSeed {
    QuestionSeed(id, r.code, r.dim, r.sign, context, r.promptSelf, r.promptOther, r.theme, r.scenario)
  }

  /** emit: reject a repeated code, then derive the ordinal and the id. */
  function Step(s: Emitted, item: Item): Result<Emitted, LoaderError> {
    match item
    case BadMode(m) => Err(UnsupportedMode(m))
    case Emit(r, context) =>
      if r.code in s.seen then Err(DuplicateCode(r.code))
      else match ExtractOrdinal(r.code)
        case Err(e) => Err(e)
        case Ok(ordinal) =>
          match NumericId(r.code, r.dim, ordinal)
          case Err(e) => Err(e)
          case Ok(id) => Ok(Emitted(s.seeds + [SeedOf(r, context, id)], s.seen + {r.code}))
  }

  /** The state after the items, starting from start; the first error ends
    * the run. */
  function Run(start: Result<Emitted, LoaderError>, items: seq<Item>): Result<Emitted, LoaderError> {
    if |items| == 0 then start else
    var front := Run(start, items[..|items| - 1]);
    if front.Err? then front else Step(front.value, items[|items| - 1])
  }

  const Fresh: Emitted := Emitted([], {})

  /** list(_iter_question_records(...)). */
  function EmitAll(common: seq<Record>, modes: seq<(string, seq<Record>)>): Result<seq<QuestionSeed>, LoaderError> {
    var r := Run(Ok(Fresh), Items(common, modes));
    if r.Err? then Err(r.error) else Ok(r.value.seeds)
  }

  lemma {:induction false} RunErr(e: LoaderError, items: seq<Item>)
    ensures Run(Err(e), items) == Err(e)
  {
    if |items| > 0 {
      RunErr(e, items[..|items| - 1]);
    }
  }

  lemma {:induction false} RunAppend(start: Result<Emitted, LoaderError>, a: seq<Item>, b: seq<Item>)
    ensures Run(start, a + b) == Run(Run(start, a), b)
    decreases |b|
  {
    if |b| == 0 {
      assert a + b == a;
    } else {
      assert (a + b)[..|a + b| - 1] == a + b[..|b| - 1];
      RunAppend(start, a, b[..|b| - 1]);
    }
  }

  /** One more item: the run up to it, then its step unless the run already
    * failed. */
  lemma RunSnoc(start: Emitted, items: seq<Item>, i: nat)
    requires i < |items|
    ensures var front := Run(Ok(start), items[..i]);
      Run(Ok(start), items[..i + 1]) == if front.Err? then front else Step(front.value, items[i])
  {
    assert items[..i + 1][..i] == items[..i];
  }

  /** A run that has failed by item n ends with that error. */
  lemma {:induction false} RunStops(start: Emitted, items: seq<Item>, n: nat, e: LoaderError)
    requires n < |items| && Run(Ok(start), items[..n + 1]) == Err(e)
    ensures Run(Ok(start), items) == Err(e)
  {
    var front, rest := items[..n + 1], items[n + 1..];
    assert front + rest == items;
    RunAppend(Ok(start), front, rest);
    RunErr(e, rest);
  }

  /** emit over one list of records, continuing from start. */
  method EmitRecords(start: Emitted, records: seq<Record>, context: string)
    returns (r: Result<Emitted, LoaderError>)
    ensures r == Run(Ok(start), Tagged(records, context))
  {
    var seeds := start.seeds;
    var seen := start.seen;
    var items := Tagged(records, context);
    var i := 0;
    while i < |records|
      invariant 0 <= i <= |records|
      invariant Run(Ok(start), items[..i]) == Ok(Emitted(seeds, seen))
    {
      var record := records[i];
      RunSnoc(start, items, i);
      assert items[i] == Emit(record, context);
      if record.code in seen {
        RunStops(start, items, i, DuplicateCode(record.code));
        return Err(DuplicateCode(record.code));
      }
      var ordinal := ExtractOrdinal(record.code);
      if ordinal.Err? {
        RunStops(start, items, i, ordinal.error);
        return Err(ordinal.error);
      }
      var id := NumericId(record.code, record.dim, ordinal.value);
      if id.Err? {
        RunStops(start, items, i, id.error);
        return Err(id.error);
      }
      seen := seen + {record.code};
      seeds := seeds + [SeedOf(record, context, id.value)];
      i := i + 1;
    }
    assert items[..i] == items;
    r := Ok(Emitted(seeds, seen));
  }

  /** The loop over the modes dict, continuing from start; table is
    * MODE_CONTEXT_MAP. */
  method EmitModes(start: Emitted, modes: seq<(string, seq<Record>)>, table: map<string, string>)
    returns (r: Result<Emitted, LoaderError>)
    ensures r == Run(Ok(start), ModeItems(modes, table))
  {
    var state := Ok(start);
    var i := 0;
    while i < |modes|
      invariant 0 <= i <= |modes|
      invariant state.Ok? && Run(Ok(start), ModeItems(modes[..i], table)) == state
    {
      var (key, records) := modes[i];
      ModeItemsSnoc(start, modes, i, table);
      if key !in table {
        assert Run(state, [BadMode(key)]) == Err(UnsupportedMode(key)) by {
          assert [BadMode(key)][..0] == [];
        }
        ModeItemsSticks(start, modes, i + 1, table, UnsupportedMode(key));
        return Err(UnsupportedMode(key));
      }
      state := EmitRecords(state.value, records, table[key]);
      if state.Err? {
        ModeItemsSticks(start, modes, i + 1, table, state.error);
        return Err(state.error);
      }
      i := i + 1;
    }
    assert modes[..i] == modes;
    r := state;
  }

  /** Running one more mode entry continues from where the earlier ones
    * stopped. */
  lemma ModeItemsSnoc(start: Emitted, modes: seq<(string, seq<Record>)>, i: nat, table: map<string, string>)
    requires i < |modes|
    ensures Run(Ok(start), ModeItems(modes[..i + 1], table)) ==
            Run(Run(Ok(start), ModeItems(modes[..i], table)), ModeTail(modes[i], table))
  {
    assert modes[..i + 1][..i] == modes[..i] && modes[..i + 1][i] == modes[i];
    RunAppend(Ok(start), ModeItems(modes[..i], table), ModeTail(modes[i], table));
  }

  /** Once the first n mode entries have failed, the rest are never
    * reached. */
  lemma ModeItemsSticks(start: Emitted, modes: seq<(string, seq<Record>)>, n: nat, table: map<string, string>, e: LoaderError)
    requires n <= |modes| && Run(Ok(start), ModeItems(modes[..n], table)) == Err(e)
    ensures Run(Ok(start), ModeItems(modes, table)) == Err(e)
  {
    ModeItemsPrefix(modes, n, table);
    var items := ModeItems(modes, table);
    var rest := items[|ModeItems(modes[..n], table)|..];
    assert items == ModeItems(modes[..n], table) + rest;
    RunAppend(Ok(start), ModeItems(modes[..n], table), rest);
    RunErr(e, rest);
  }

  lemma {:induction false} ModeItemsPrefix(modes: seq<(string, seq<Record>)>, n: nat, table: map<string, string>)
    requires n <= |modes|
    ensures ModeItems(modes[..n], table) <= ModeItems(modes, table)
    decreases |modes|
  {
    if n < |modes| {
      var front := modes[..|modes| - 1];
      assert front[..n] == modes[..n];
      ModeItemsPrefix(front, n, table);
    } else {
      assert modes[..n] == modes;
    }
  }

  /** _iter_question_records, drained into a list: the common records, then
    * each mode's records under the mode's context. */
  method IterQuestionRecords(common: seq<Record>, modes: seq<(string, seq<Record>)>)
    returns (r: Result<seq<QuestionSeed>, LoaderError>)
    ensures r == EmitAll(common, modes)
  {
    var state := EmitRecords(Fresh, common, "common");
    RunAppend(Ok(Fresh), Tagged(common, "common"), ModeItems(modes, ModeContextMap));
    if state.Err? {
      RunErr(state.error, ModeItems(modes, ModeContextMap));
      return Err(state.error);
    }
    state := EmitModes(state.value, modes, ModeContextMap);
    if state.Err? {
      return Err(state.error);
    }
    r := Ok(state.value.seeds);
  }

  // ---------------------------------------------------------------- properties

  /** The seed an item yields when it is emitted. */
  function ExpectedSeed(item: Item): Option<QuestionSeed> {
    match item
    case BadMode(_) => None
    case Emit(r, context) =>
      match ExtractOrdinal(r.code)
      case Err(_) => None
      case Ok(ordinal) =>
        match NumericId(r.code, r.dim, ordinal)
        case Err(_) => None
        case Ok(id) => Some(SeedOf(r, context, id))
  }

  function CodesOf(seeds: seq<QuestionSeed>): set<string> {
    set k | 0 <= k < |seeds| :: seeds[k].code
  }

  predicate DistinctCodes(seeds: seq<QuestionSeed>) {
    forall a, b :: 0 <= a < b < |seeds| ==> seeds[a].code != seeds[b].code
  }

  /** On success every item was a record, the k-th seed is the k-th record
    * with its context and derived id, and seen_codes holds exactly the
    * seeds' codes. */
  lemma {:induction false} RunSeeds(items: seq<Item>)
    requires Run(Ok(Fresh), items).Ok?
    ensures var s := Run(Ok(Fresh), items).value;
      |s.seeds| == |items| && s.seen == CodesOf(s.seeds) &&
      forall k :: 0 <= k < |items| ==> ExpectedSeed(items[k]) == Some(s.seeds[k])
  {
    if |items| > 0 {
      var front, last := items[..|items| - 1], items[|items| - 1];
      RunSeeds(front);
      var prev := Run(Ok(Fresh), front).value;
      var s := Run(Ok(Fresh), items).value;
      StepShape(prev, last);
      var x := ExpectedSeed(last).value;
      assert s == Emitted(prev.seeds + [x], prev.seen + {x.code});
      CodesSnoc(prev.seeds, x);
      forall k | 0 <= k < |items| ensures ExpectedSeed(items[k]) == Some(s.seeds[k]) {
        if k < |front| {
          assert items[k] == front[k];
        }
      }
    }
  }

  /** A step that succeeds emits the item's expected seed and records its
    * code. */
  lemma StepShape(prev: Emitted, item: Item)
    requires Step(prev, item).Ok?
    ensures ExpectedSeed(item).Some? && ExpectedSeed(item).value.code == item.record.code
    ensures item.record.code !in prev.seen
    ensures Step(prev, item).value == Emitted(prev.seeds + [ExpectedSeed(item).value], prev.seen + {item.record.code})
  {
  }

  lemma CodesSnoc(seeds: seq<QuestionSeed>, x: QuestionSeed)
    ensures CodesOf(seeds + [x]) == CodesOf(seeds) + {x.code}
  {
    var t := seeds + [x];
    forall c | c in CodesOf(seeds) ensures c in CodesOf(t) {
      var k :| 0 <= k < |seeds| && seeds[k].code == c;
      assert t[k].code == c;
    }
    assert t[|seeds|].code == x.code;
  }

  /** On success no two seeds share a code. */
  lemma {:induction false} RunDistinct(items: seq<Item>)
    requires Run(Ok(Fresh), items).Ok?
    ensures DistinctCodes(Run(Ok(Fresh), items).value.seeds)
  {
    if |items| > 0 {
      var front := items[..|items| - 1];
      RunDistinct(front);
      RunSeeds(front);
      var prev := Run(Ok(Fresh), front).value;
      var s := Run(Ok(Fresh), items).value;
      StepShape(prev, items[|items| - 1]);
      var last := ExpectedSeed(items[|items| - 1]).value;
      assert s.seeds == prev.seeds + [last];
      assert last.code !in CodesOf(prev.seeds);
      forall a | 0 <= a < |prev.seeds| ensures prev.seeds[a].code != last.code {
        assert prev.seeds[a].code in CodesOf(prev.seeds);
      }
    }
  }

  /** Two records with the same code make the load fail. */
  lemma DuplicateRejected(items: seq<Item>, a: nat, b: nat)
    requires a < b < |items| && items[a].Emit? && items[b].Emit? && items[a].record.code == items[b].record.code
    ensures Run(Ok(Fresh), items).Err?
  {
    if Run(Ok(Fresh), items).Ok? {
      RunSeeds(items);
      RunDistinct(items);
    }
  }

  /** A known mode's records carry the context the table maps it to, and
    * an unknown mode key leaves its mark among the items. */
  lemma {:induction false} ModeContexts(modes: seq<(string, seq<Record>)>, table: map<string, string>)
    ensures forall k :: 0 <= k < |ModeItems(modes, table)| && ModeItems(modes, table)[k].Emit? ==>
      ModeItems(modes, table)[k].context in table.Values
    ensures (exists i :: 0 <= i < |modes| && modes[i].0 !in table) ==>
      exists k :: 0 <= k < |ModeItems(modes, table)| && ModeItems(modes, table)[k].BadMode?
  {
    if |modes| > 0 {
      var front := modes[..|modes| - 1];
      ModeContexts(front, table);
      var (key, records) := modes[|modes| - 1];
      var mi := ModeItems(modes, table);
      assert forall k :: 0 <= k < |ModeItems(front, table)| ==> mi[k] == ModeItems(front, table)[k];
      if key in table {
        assert table[key] in table.Values;
      } else {
        assert mi[|mi| - 1] == BadMode(key);
      }
      if exists i :: 0 <= i < |modes| && modes[i].0 !in table {
        var i :| 0 <= i < |modes| && modes[i].0 !in table;
        if i < |front| {
          assert front[i].0 !in table;
        }
      }
    }
  }

  /** A mode key the map does not know makes the load fail. */
  lemma UnknownModeRejected(common: seq<Record>, modes: seq<(string, seq<Record>)>, i: nat)
    requires i < |modes| && modes[i].0 !in ModeContextMap
    ensures EmitAll(common, modes).Err?
  {
    ModeContexts(modes, ModeContextMap);
    var items := Items(common, modes);
    var k :| 0 <= k < |ModeItems(modes, ModeContextMap)| && ModeItems(modes, ModeContextMap)[k].BadMode?;
    assert items[|common| + k].BadMode?;
    if Run(Ok(Fresh), items).Ok? {
      RunSeeds(items);
    }
  }

  /** Every context a seed can carry has a place in CONTEXT_SORT_ORDER. */
  lemma {:induction false} SeedContextsRanked(common: seq<Record>, modes: seq<(string, seq<Record>)>)
    requires EmitAll(common, modes).Ok?
    ensures forall k :: 0 <= k < |EmitAll(common, modes).value| ==>
      EmitAll(common, modes).value[k].context in ContextSortOrder
  {
    var items := Items(common, modes);
    RunSeeds(items);
    ModeContexts(modes, ModeContextMap);
    forall v | v in ModeContextMap.Values ensures v in ContextSortOrder {
      var key :| key in ModeContextMap && ModeContextMap[key] == v;
    }
    var mi := ModeItems(modes, ModeContextMap);
    forall k | 0 <= k < |items|
      ensures items[k].Emit? ==> items[k].context in ContextSortOrder
    {
      if k >= |common| {
        assert items[k] == mi[k - |common|];
      }
    }
  }

  // ---------------------------------------------------------------- ordering

  /** CONTEXT_SORT_ORDER[context]; the loader only meets ranked contexts,
    * others would come last. */
  function Rank(context: string): int {
    if context in ContextSortOrder then ContextSortOrder[context] else |ContextSortOrder|
  }

  /** The sort key (CONTEXT_SORT_ORDER[context], id) as an ordering. */
  function BySortKey(a: QuestionSeed, b: QuestionSeed): bool {
    Rank(a.context) < Rank(b.context) || (Rank(a.context) == Rank(b.context) && a.id <= b.id)
  }

  lemma BySortKeyTotal()
    ensures Sorting.TotalPreorder(BySortKey)
  {
  }

  /** get_question_seeds: the emitted seeds ordered by context, then id. */
  function QuestionSeeds(common: seq<Record>, modes: seq<(string, seq<Record>)>): (r: Result<seq<QuestionSeed>, LoaderError>)
    ensures r.Err? <==> EmitAll(common, modes).Err?
    ensures r.Ok? ==>
      Sorting.SortedBy(r.value, BySortKey) && multiset(r.value) == multiset(EmitAll(common, modes).value)
  {
    var emitted := EmitAll(common, modes);
    if emitted.Err? then emitted
    else
      BySortKeyTotal();
      Sorting.SortCorrect(emitted.value, BySortKey);
      Ok(Sorting.Sort(emitted.value, BySortKey))
  }

  /** The seeds come out ordered by (context rank, id), hold exactly the
    * emitted seeds, and never repeat a code. */
  lemma SeedsOrdered(common: seq<Record>, modes: seq<(string, seq<Record>)>)
    requires QuestionSeeds(common, modes).Ok?
    ensures var seeds := QuestionSeeds(common, modes).value;
      Sorting.SortedBy(seeds, BySortKey) &&
      multiset(seeds) == multiset(EmitAll(common, modes).value) &&
      DistinctCodes(seeds)
  {
    var emitted := EmitAll(common, modes).value;
    var seeds := QuestionSeeds(common, modes).value;
    BySortKeyTotal();
    Sorting.SortCorrect(emitted, BySortKey);
    RunDistinct(Items(common, modes));
    forall a, b | 0 <= a < b < |seeds| ensures seeds[a].code != seeds[b].code {
      if seeds[a].code == seeds[b].code {
        DistinctAfterPermutation(emitted, seeds, a, b);
      }
    }
  }

  /** A permutation of seeds with distinct codes has distinct codes. */
  lemma DistinctAfterPermutation(xs: seq<QuestionSeed>, ys: seq<QuestionSeed>, a: nat, b: nat)
    requires DistinctCodes(xs) && multiset(xs) == multiset(ys) && a < b < |ys|
    ensures ys[a].code != ys[b].code
  {
    if ys[a].code == ys[b].code {
      assert ys[a] in multiset(xs);
      var i :| 0 <= i < |xs| && xs[i] == ys[a];
      assert ys[b] in multiset(xs);
      var j :| 0 <= j < |xs| && xs[j] == ys[b];
      if i == j {
        Sorting.CountTwice(ys, a, b);
        Sorting.CountOnce(xs, (q: QuestionSeed) => q.code, i);
      }
    }
  }

  // ---------------------------------------------------------------- lookups

  /** get_seeds_by_context: the seeds of one context, in their order; the
    * context is matched case-insensitively and must be a known one. */
  function SeedsByContext(seeds: seq<QuestionSeed>, context: string): (r: Result<seq<QuestionSeed>, LoaderError>)
    ensures r.Err? <==> Text.Lower(context) !in ContextSortOrder
    ensures r.Ok? ==> forall q :: q in r.value <==> q in seeds && q.context == Text.Lower(context)
  {
    var normalized := Text.Lower(context);
    if normalized !in ContextSortOrder then Err(UnsupportedContext(context))
    else Ok(OfContext(seeds, normalized))
  }

  /** [seed for seed in seeds if seed.context == context]. */
  function OfContext(seeds: seq<QuestionSeed>, context: string): (r: seq<QuestionSeed>)
    ensures forall q :: q in r <==> q in seeds && q.context == context
  {
    if |seeds| == 0 then [] else
    var front := OfContext(seeds[..|seeds| - 1], context);
    assert forall q :: q in seeds <==> q in seeds[..|seeds| - 1] || q == seeds[|seeds| - 1];
    if seeds[|seeds| - 1].context == context then front + [seeds[|seeds| - 1]] else front
  }

  /** The context argument's letter case does not matter. */
  lemma SeedsByContextAnyCase(seeds: seq<QuestionSeed>, context: string)
    ensures SeedsByContext(seeds, context).Ok? == SeedsByContext(seeds, Text.Lower(context)).Ok?
    ensures SeedsByContext(seeds, context).Ok? ==>
      SeedsByContext(seeds, context).value == SeedsByContext(seeds, Text.Lower(context)).value
  {
    Text.LowerIdempotent(context);
  }

  /** get_question_lookup: {seed.id: seed}, a later seed replacing an earlier
    * one with the same id. */
  function LookupOf(seeds: seq<QuestionSeed>): (m: map<int, QuestionSeed>)
    ensures forall id :: id in m <==> exists k :: 0 <= k < |seeds| && seeds[k].id == id
    ensures forall id :: id in m ==> m[id].id == id && m[id] in seeds
  {
    if |seeds| == 0 then map[] else
    var front := LookupOf(seeds[..|seeds| - 1]);
    var last := seeds[|seeds| - 1];
    assert forall k :: 0 <= k < |seeds| - 1 ==> seeds[..|seeds| - 1][k] == seeds[k];
    front[last.id := last]
  }

  // ---------------------------------------------------------------- loading

  /** One entry of the modes dict, validated. */
  function ValidateMode(mode: (string, seq<RawRecord>)): Result<(string, seq<Record>), LoaderError> {
    var v := ValidateAll(mode.1, ValidateRecord);
    if v.Err? then Err(v.error) else Ok((mode.0, v.value))
  }

  /** get_question_seeds on a questionnaire read from the file: the model
    * validation, then the records walk and the ordering. */
  function LoadSeeds(common: seq<RawRecord>, modes: seq<(string, seq<RawRecord>)>): (r: Result<seq<QuestionSeed>, LoaderError>)
    ensures ValidateAll(common, ValidateRecord).Err? ==> r == Err(ValidateAll(common, ValidateRecord).error)
    ensures r.Ok? ==>
      (forall i :: 0 <= i < |common| ==> ValidateRecord(common[i]).Ok?) &&
      (forall i :: 0 <= i < |modes| ==> ValidateMode(modes[i]).Ok?) &&
      Sorting.SortedBy(r.value, BySortKey)
  {
    var c := ValidateAll(common, ValidateRecord);
    var m := ValidateAll(modes, ValidateMode);
    if c.Err? then Err(c.error) else if m.Err? then Err(m.error) else QuestionSeeds(c.value, m.value)
  }

  predicate SeedSigned(q: QuestionSeed) {
    q.sign == -1 || q.sign == 1
  }

  predicate ItemsValid(items: seq<Item>) {
    forall k :: 0 <= k < |items| && items[k].Emit? ==> ValidRecord(items[k].record)
  }

  lemma {:induction false} ModeItemsValid(modes: seq<(string, seq<Record>)>, table: map<string, string>)
    requires forall i, j :: 0 <= i < |modes| && 0 <= j < |modes[i].1| ==> ValidRecord(modes[i].1[j])
    ensures ItemsValid(ModeItems(modes, table))
  {
    if |modes| > 0 {
      var front := modes[..|modes| - 1];
      assert forall i :: 0 <= i < |front| ==> front[i] == modes[i];
      ModeItemsValid(front, table);
      var mi := ModeItems(modes, table);
      var fi := ModeItems(front, table);
      var last := modes[|modes| - 1];
      assert mi == fi + ModeTail(last, table);
      forall k | 0 <= k < |mi| && mi[k].Emit? ensures ValidRecord(mi[k].record) {
        if k >= |fi| {
          assert mi[k] == ModeTail(last, table)[k - |fi|];
          assert last.0 in table;
          assert mi[k].record == last.1[k - |fi|];
        }
      }
    }
  }

  /** The records of validated modes are valid records. */
  lemma ValidatedModesValid(modes: seq<(string, seq<RawRecord>)>, m: seq<(string, seq<Record>)>)
    requires ValidateAll(modes, ValidateMode) == Ok(m)
    ensures forall i, j :: 0 <= i < |m| && 0 <= j < |m[i].1| ==> ValidRecord(m[i].1[j])
  {
    forall i, j | 0 <= i < |m| && 0 <= j < |m[i].1| ensures ValidRecord(m[i].1[j]) {
      assert ValidateMode(modes[i]).Ok?;
      assert ValidateRecord(modes[i].1[j]).Ok?;
    }
  }

  /** Valid common records and valid mode records make valid items. */
  lemma ItemsOfValid(c: seq<Record>, m: seq<(string, seq<Record>)>)
    requires forall k :: 0 <= k < |c| ==> ValidRecord(c[k])
    requires forall i, j :: 0 <= i < |m| && 0 <= j < |m[i].1| ==> ValidRecord(m[i].1[j])
    ensures ItemsValid(Items(c, m))
  {
    ModeItemsValid(m, ModeContextMap);
    var items := Items(c, m);
    var tagged, rest := Tagged(c, "common"), ModeItems(m, ModeContextMap);
    assert items == tagged + rest;
    forall k | 0 <= k < |items| && items[k].Emit? ensures ValidRecord(items[k].record) {
      if k >= |c| {
        assert items[k] == rest[k - |c|];
      }
    }
  }

  /** A walk over valid items emits only signed seeds. */
  lemma RunSigned(items: seq<Item>)
    requires Run(Ok(Fresh), items).Ok? && ItemsValid(items)
    ensures forall q :: q in Run(Ok(Fresh), items).value.seeds ==> SeedSigned(q)
  {
    RunSeeds(items);
  }

  /** Ordering the seeds keeps every one of them signed. */
  lemma SortedSigned(emitted: seq<QuestionSeed>)
    requires forall q :: q in emitted ==> SeedSigned(q)
    ensures forall q :: q in Sorting.Sort(emitted, BySortKey) ==> SeedSigned(q)
  {
    BySortKeyTotal();
    Sorting.SortCorrect(emitted, BySortKey);
    forall q | q in Sorting.Sort(emitted, BySortKey) ensures SeedSigned(q) {
      assert q in multiset(emitted);
    }
  }

  /** Every loaded seed carries a sign of -1 or 1. */
  lemma LoadedSeedsSigned(common: seq<RawRecord>, modes: seq<(string, seq<RawRecord>)>)
    requires LoadSeeds(common, modes).Ok?
    ensures forall q :: q in LoadSeeds(common, modes).value ==> SeedSigned(q)
  {
    var c := ValidateAll(common, ValidateRecord).value;
    var m := ValidateAll(modes, ValidateMode).value;
    ValidatedModesValid(modes, m);
    assert forall k :: 0 <= k < |c| ==> ValidRecord(c[k]) by {
      forall k | 0 <= k < |c| ensures ValidRecord(c[k]) {
        assert ValidateRecord(common[k]).Ok?;
      }
    }
    ItemsOfValid(c, m);
    RunSigned(Items(c, m));
    SortedSigned(EmitAll(c, m).value);
  }
}
