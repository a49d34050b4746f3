// The question catalogue per test mode (app/data/questions.py): the seeds of
// the contexts a mode covers, ordered by id, as payload dicts.
module Questions {
  import opened Wrappers
  import opened Schemas
  import Text
  import Sorting
  import QL = QuestionnaireLoader

  /** MODE_TO_CONTEXTS: the contexts whose questions each mode asks. */
  const ModeToContexts: map<string, set<string>> := map[
    "basic" := {"common"},
    "friend" := {"common", "friend"},
    "couple" := {"common", "couple"},
    "work" := {"work"},
    "partner" := {"partner"},
    "family" := {"family"}
  ]

  /** The ValueError questions_for_mode raises. */
  datatype QuestionsError = UnsupportedMode(mode: string)

  /** question_payload's dict: the nine fields of a seed. */
  datatype QuestionPayload = QuestionPayload(id: int, code: string, dim: string, sign: int, context: string,
                                             promptSelf: string, promptOther: string, theme: string, scenario: string)

  /** question_payload. */
  function PayloadOf(seed: QL.QuestionSeed): QuestionPayload {
    QuestionPayload(seed.id, seed.code, DimName(seed.dim), seed.sign, seed.context,
                    seed.promptSelf, seed.promptOther, seed.theme, seed.scenario)
  }

  /** Reading a payload back as a seed. */
  function SeedOf(p: QuestionPayload): Option<QL.QuestionSeed> {
    match ValidateDim(p.dim)
    case None => None
    case Some(d) => Some(QL.QuestionSeed(p.id, p.code, d, p.sign, p.context, p.promptSelf, p.promptOther, p.theme, p.scenario))
  }

  /** The payload carries every field of the seed unchanged: the seed can be
    * read back from it. */
  lemma PayloadRoundTrip(seed: QL.QuestionSeed)
    ensures SeedOf(PayloadOf(seed)) == Some(seed)
  {
    ValidateDimAnyCase(seed.dim);
  }

  /** The seeds whose context is one of contexts, in their order. */
  function InContexts(seeds: seq<QL.QuestionSeed>, contexts: set<string>): (r: seq<QL.QuestionSeed>)
    ensures forall q :: q in r <==> q in seeds && q.context in contexts
  {
    if |seeds| == 0 then [] else
    var front := InContexts(seeds[..|seeds| - 1], contexts);
    var last := seeds[|seeds| - 1];
    assert forall q :: q in seeds <==> q in seeds[..|seeds| - 1] || q == last;
    if last.context in contexts then front + [last] else front
  }

  /** The sort key seed.id as an ordering. */
  function ById(a: QL.QuestionSeed, b: QL.QuestionSeed): bool {
    a.id <= b.id
  }

  lemma ByIdTotal()
    ensures Sorting.TotalPreorder(ById)
  {
  }

  /** The seeds a mode asks, ordered by id (or the error for an unknown
    * mode); the mode is matched after lower-casing. */
  function ModeSeeds(seeds: seq<QL.QuestionSeed>, mode: string): (r: Result<seq<QL.QuestionSeed>, QuestionsError>)
    ensures r.Err? <==> Text.Lower(mode) !in ModeToContexts
    ensures r.Err? ==> r.error == UnsupportedMode(mode)
    ensures r.Ok? ==> |r.value| == |InContexts(seeds, ModeToContexts[Text.Lower(mode)])|
  {
    var normalized := Text.Lower(mode);
    if normalized !in ModeToContexts then Err(UnsupportedMode(mode))
    else Ok(Sorting.Sort(InContexts(seeds, ModeToContexts[normalized]), ById))
  }

  function PayloadsOf(seeds: seq<QL.QuestionSeed>): (r: seq<QuestionPayload>)
    ensures |r| == |seeds| && forall k :: 0 <= k < |seeds| ==> r[k] == PayloadOf(seeds[k])
  {
    seq(|seeds|, k requires 0 <= k < |seeds| => PayloadOf(seeds[k]))
  }

  /** questions_for_mode. */
  function QuestionsForMode(seeds: seq<QL.QuestionSeed>, mode: string): (r: Result<seq<QuestionPayload>, QuestionsError>)
    ensures r.Err? <==> Text.Lower(mode) !in ModeToContexts
    ensures r.Ok? ==> forall i, j :: 0 <= i < j < |r.value| ==> r.value[i].id <= r.value[j].id
    ensures r.Ok? ==> forall k :: 0 <= k < |r.value| ==> r.value[k].context in ModeToContexts[Text.Lower(mode)]
  {
    ModeSeedsSpec(seeds, mode);
    var chosen := ModeSeeds(seeds, mode);
    if chosen.Err? then Err(chosen.error) else Ok(PayloadsOf(chosen.value))
  }

  /** A mode outside MODE_TO_CONTEXTS is rejected; otherwise the questions
    * are exactly the seeds of the mode's contexts, each once per
    * occurrence, in ascending id order. */
  lemma ModeSeedsSpec(seeds: seq<QL.QuestionSeed>, mode: string)
    ensures ModeSeeds(seeds, mode).Err? <==> Text.Lower(mode) !in ModeToContexts
    ensures ModeSeeds(seeds, mode).Ok? ==>
      var chosen := ModeSeeds(seeds, mode).value;
      var contexts := ModeToContexts[Text.Lower(mode)];
      (forall i, j :: 0 <= i < j < |chosen| ==> chosen[i].id <= chosen[j].id) &&
      multiset(chosen) == multiset(InContexts(seeds, contexts)) &&
      (forall q :: q in chosen <==> q in seeds && q.context in contexts)
  {
    if Text.Lower(mode) in ModeToContexts {
      var candidates := InContexts(seeds, ModeToContexts[Text.Lower(mode)]);
      ByIdTotal();
      Sorting.SortCorrect(candidates, ById);
      var chosen := Sorting.Sort(candidates, ById);
      forall q ensures q in chosen <==> q in candidates {
        assert q in chosen <==> q in multiset(chosen);
        assert q in candidates <==> q in multiset(candidates);
      }
    }
  }

  /** The mode's letter case does not matter. */
  lemma ModeAnyCase(seeds: seq<QL.QuestionSeed>, mode: string)
    ensures QuestionsForMode(seeds, mode).Ok? == QuestionsForMode(seeds, Text.Lower(mode)).Ok?
    ensures QuestionsForMode(seeds, mode).Ok? ==>
      QuestionsForMode(seeds, mode).value == QuestionsForMode(seeds, Text.Lower(mode)).value
  {
    Text.LowerIdempotent(mode);
  }

  /** The basic mode asks the common questions only, and the work mode the
    * work questions only. */
  lemma BasicAndWork(seeds: seq<QL.QuestionSeed>)
    ensures ModeSeeds(seeds, "basic").Ok? && ModeSeeds(seeds, "work").Ok?
    ensures forall q :: q in ModeSeeds(seeds, "basic").value <==> q in seeds && q.context == "common"
    ensures forall q :: q in ModeSeeds(seeds, "work").value <==> q in seeds && q.context == "work"
  {
    assert Text.Lower("basic") == "basic" && Text.Lower("work") == "work";
    ModeSeedsSpec(seeds, "basic");
    ModeSeedsSpec(seeds, "work");
  }
}
