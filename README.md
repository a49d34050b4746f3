# A verified model of the MBTI arcade perception-gap services

This Dafny project models the core of the MBTI arcade repository and proves properties of that model. The repository holds three parts.

- **The perception-gap application (`mbti-arcade`).**
  - A person takes a personality questionnaire about themselves. Friends, family or a partner answer the same questions about that person.
  - The service turns Likert answers into four axis norms (E/I, S/N, T/F, J/P). It weights the other raters by relation and reports the gap between the self view and how others see the person.
  - Per-relation results stay hidden until enough raters have answered.
- **The couple flow.** Two partners answer 48 items about themselves and guess each other's answers through stages 1 → 2 → 3. The flow computes eight scale means, partner deltas, flags and insight cards. Every audit event chains the previous event's hash.
- **The calculation service and test client.**
  - `calculate-service` keeps an arithmetic problem bank, share invites that expire, and category cards.
  - `testing_utils` holds a synchronous test client with case-insensitive headers and a bounded redirect loop.

The model follows the source file by file, with one Dafny module per core file.

**Pure code becomes functions and lemmas.** This covers validators, scoring formulas, the question loader, problem building and body encoding.

**Code that updates state step by step becomes classes and methods:**
- the couple session;
- the participant and response stores;
- the aggregate tables;
- the invite store;
- the problem repository;
- the friend-evaluation store;
- the image canvas over an `array3`;
- the headers object.

Each method is proved against a specification function or states its whole new state.

**Loops are methods with invariants tied to those functions.** This covers scoring loops, the audit classification, card building, header merging and the redirect loop.

**Three shared modules hold the common ground:**
- Python's insertion-ordered `dict` is an association list with distinct keys (`OrderedMaps`).
- `sorted()` is a stable insertion sort under a total preorder (`Sorting`).
- Parsed JSON values are a datatype (`JsonValues`).

**Floats are exact reals.** Python's `round()` on a float is modelled as rounding half to even on the exact value.

**Things the code receives from outside are parameters:**
- the clock;
- random tokens;
- SHA-256, zlib and CRC-32;
- JSON serialisation;
- URL parsing and joining;
- environment values;
- the ASGI application.

## Model

| member | source | states |
|---|---|---|
| Advice.BuildAdvice | mbti-arcade/app/core/advice.py:7-12 | the loop over zip of the two type strings returns exactly the sentences Items gives, joined by single spaces |
| Advice.SentenceFor | mbti-arcade/app/core/advice.py:1-5 | the matrix sentence for a known letter pair and the respect-the-difference default for any other pair |
| Advice.ItemsFollowMismatches | mbti-arcade/app/core/advice.py:9-11 | the k-th sentence is the one for the k-th differing position: one sentence per mismatch, in position order, none for matching letters |
| Advice.SamePrefixSameItems | mbti-arcade/app/core/advice.py:9 | the advice over the first n positions depends only on those letters |
| Advice.ZipTruncates | mbti-arcade/app/core/advice.py:9 | zip stops at the shorter string, so the longer string's tail never changes the advice |
| Advice.AdviceEmpty | mbti-arcade/app/core/advice.py:7-12 | the advice is the empty string exactly when every compared pair of letters matches |
| Auth.AcceptedForm | mbti-arcade/app/utils/auth.py:18-36 | a header is accepted exactly when it splits into two words, the first some spelling of "bearer"; the key is then the second word, non-empty and free of whitespace |
| Auth.ExtractOwnerKey | mbti-arcade/app/utils/auth.py:18-36 | a missing or empty header is the missing-token error; an accepted key is non-empty and holds no whitespace |
| Auth.BearerRoundTrip | mbti-arcade/app/utils/auth.py:18-36 | "Bearer", one space and a whitespace-free token always yields that token back |
| Urling.Canonicalize | mbti-arcade/app/urling.py:11-28 | the URL is kept when the base is empty, unparsable or lacks a scheme or host; otherwise it takes the base's scheme and host, and the base path (right-stripped of "/") is prefixed unless it is "" or "/" |
| Urling.IdempotentAtRoot | mbti-arcade/app/urling.py:11-28 | with a root base path, canonicalising twice against the same base equals canonicalising once |
| Health.PrefixTo | mbti-arcade/app/routers/health.py:136 | Python's s[:stop] for every integer stop, negative ones counting from the end, clipped to the string |
| Health.TruncateFits | mbti-arcade/app/routers/health.py:133-136 | for a limit of at least 3 the result fits the limit, fills it exactly when cut, and a cut result is a prefix of the detail plus the ellipsis |
| Health.ReadinessOf | mbti-arcade/app/routers/health.py:48-66 | "ready" with 200 exactly when every check's status is "ok", "degraded" with 503 otherwise |
| Results.FetchResult | mbti-arcade/app/routers/results.py:15-56 | 404 for an unknown invite token, 400 when the aggregate does not score; otherwise the aggregate row is rewritten and the detail returned |
| Results.DetailOf | mbti-arcade/app/routers/results.py:45-56 | the detail copies the session id, mode, count and self side and blanks every other-side column when the other side is not published |
| Results.PublishedOnlyWhenAllowed | mbti-arcade/app/routers/results.py:41-56 | the other-side columns are all present or all absent, present exactly when there are raters and the session is a couple session or has three of them |
| Results.ResultErrors | mbti-arcade/app/routers/results.py:16-37 | a result fails exactly when the session is missing or its self answers are missing or do not score; on success the self norms are those of the self answers |
| LegacyMbti.FavouredPercent | mbti-arcade/app/routers/mbti.py:187-224 | the favoured pole's share: int(min(100, (abs(raw) + 12) / 24 * 100)), between 50 and 100 |
| LegacyMbti.PoleScoresOf | mbti-arcade/app/routers/mbti.py:190-197 | the pole a positive raw score leans to (the second pole at zero or below) gets the favoured share and the other pole the rest of 100 |
| LegacyMbti.TypeOf | mbti-arcade/app/routers/mbti.py:226-231 | the four letters in E-I, S-N, T-F, J-P order, the first pole's letter exactly when its raw score is positive |
| LegacyMbti.ResultAxes | mbti-arcade/app/routers/mbti.py:186-231 | on every axis the two percentages sum to 100, the letter follows the raw score's sign, and the larger percentage sits on that letter's side |
| MbtiScript.ErrorSticks | test_mbti.py:46-50 | once an answer fails int(), later questions do not change the outcome |
| MbtiScript.AccumulateRaw | test_mbti.py:46-64 | the loop adds sign * (value - 3) to the question's axis for each answered question and fails on the first unparsable answer |
| MbtiScript.CalculateMbtiScore | test_mbti.py:41-117 | the result is the raw scores of the loop together with the percentages and letters derived from them |
| MbtiScript.RawIsAxisSum | test_mbti.py:46-64 | the scorer fails exactly when some answered question does not parse; otherwise each axis holds the sum over its answered questions |
| MbtiScript.ForeignKeyIgnored | test_mbti.py:47-48 | an answer under a key that is no question id is never read |
| MbtiScript.NeutralRaw | test_mbti.py:46-64 | answers that all read as 3 leave every raw score at zero |
| MbtiScript.Neutral | test_mbti.py:202-227 | all answers "3" give 50/50 on every axis and, ties going to the second pole, the type INFP |
| MbtiService.Pct | mbti-arcade/app/core/services/mbti_service.py:19-21 | pct(v) = int((abs(v) + 12) / 24 * 100) without an upper clamp: 50 at zero, growing with abs(v) |
| MbtiService.CalcScores | mbti-arcade/app/core/services/mbti_service.py:12-38 | returns the type letters, the pole scores and the raw sums of sign * (value - 3) over the answered questions |
| MbtiService.PolesOfAxis | mbti-arcade/app/core/services/mbti_service.py:22-37 | every pole scores at least 50, the unfavoured pole exactly 50, and the first pole is ahead and chosen exactly when raw is positive |
| MbtiService.ZeroIsMissing | mbti-arcade/app/core/services/mbti_service.py:15-16 | an answer of 0 is skipped like a missing one |
| MbtiService.EBiased | mbti-arcade/app/core/services/mbti_service.py:12-38 | answers leaning to E on every E-I question give an E type with E ahead of I |
| MbtiRouter.FindQuestion | mbti-arcade/app/routers/mbti.py:167 | the first question carrying the id, or none when no question has it |
| MbtiRouter.ScoreForm | mbti-arcade/app/routers/mbti.py:159-231 | the form loop: q-prefixed fields are parsed with int(), known questions add sign * (value - 3) to their axis; the percentages and letters follow |
| MbtiRouter.ErrorSticks | mbti-arcade/app/routers/mbti.py:163-166 | once a field raises, later fields do not change the outcome |
| MbtiRouter.MbtiResult | mbti-arcade/app/routers/mbti.py:149-255 | the form is scored, and the evaluation is saved under friend_email, stamped with now, exactly when that email is non-empty |
| MbtiRouter.SelfMbtiResult | mbti-arcade/app/routers/mbti.py:258-346 | the same scoring as mbti_result with nothing saved |
| MbtiRouter.ScanIsAxisSum | mbti-arcade/app/routers/mbti.py:163-184 | the form fails exactly when some field raises; otherwise each axis holds the sum of sign * (value - 3) over the fields answering its questions |
| MbtiRouter.InertFieldIgnored | mbti-arcade/app/routers/mbti.py:163-168 | inserting a field that is not a q-field anywhere in the form leaves the outcome and raw scores unchanged |
| FriendDatabase.SaveAppendsOne | mbti-arcade/app/database.py:14-20 | saving appends exactly one record to that email's list, creating the list when absent, and leaves every other email's list alone |
| FriendDatabase.Tally | mbti-arcade/app/database.py:66-71 | counts.get(k, 0) + 1 for each key in turn yields a dict with each key once, in first-seen order |
| FriendDatabase.DistributionSnoc | mbti-arcade/app/database.py:69-71 | one more evaluation raises its type's count (UNKNOWN when it has none) by one and leaves the other counts |
| FriendDatabase.TotalsOf | mbti-arcade/app/database.py:67-75 | total_scores holds, per letter, the sum of scores.get(letter, 0) over the evaluations |
| FriendDatabase.TotalsSnoc | mbti-arcade/app/database.py:73-75 | one more evaluation adds its scores letter by letter to the running totals |
| FriendDatabase.SumCountsUpdate | mbti-arcade/app/database.py:71 | raising one entry's count changes the sum of the counts by the same amount |
| FriendDatabase.TallyCount | mbti-arcade/app/database.py:66-71 | the tally counts exactly the occurrences of every key and holds no key that does not occur |
| FriendDatabase.TallySum | mbti-arcade/app/database.py:66-71 | the counts of the distribution sum to the number of evaluations |
| FriendDatabase.NewerFirstTotal | mbti-arcade/app/database.py:82 | comparing created_at in reverse is a total preorder, so the stable sort applies |
| FriendDatabase.RecentShape | mbti-arcade/app/database.py:81-82 | the five newest evaluations, newest first (all of them when there are five or fewer), drawn from the list, and every evaluation left out is no newer than any kept one |
| FriendDatabase.Database.constructor | mbti-arcade/app/database.py:11-12 | both stores start empty |
| FriendDatabase.Database.SaveEvaluation | mbti-arcade/app/database.py:14-23 | the record, stamped with now as created_at, is appended to the email's list and nothing else changes |
| FriendDatabase.Database.SaveFriendInfo | mbti-arcade/app/database.py:29-38 | the email's record is replaced by a fresh one carrying name, email, description, perspective and now |
| FriendDatabase.Database.UpdateActualMbti | mbti-arcade/app/database.py:40-47 | True exactly for a known email, whose record then gets the actual type and now; False and no change otherwise |
| FriendDatabase.Database.FriendInfoOf | mbti-arcade/app/database.py:49-51 | the record stored under the email, or none |
| FriendDatabase.Database.EvaluationStatistics | mbti-arcade/app/database.py:53-89 | empty statistics for an email without evaluations; otherwise the count, the distribution, the per-letter averages and the five newest, from one pass over the list |
| FriendDatabase.StatisticsShape | mbti-arcade/app/database.py:53-89 | the total is the list length, the distribution counts every type and sums to it, each average is the letter's total over the count, and the recent list is RecentOf's (whose shape RecentShape states) |
| Observability.ParseItem | mbti-arcade/app/observability.py:166-173 | an item without "=" is skipped; otherwise it is split at the first "=" only, both halves stripped, and skipped when the key is empty |
| Observability.ParsedItems | mbti-arcade/app/observability.py:166 | the comma-separated items of the raw value, each parsed |
| Observability.ParseOtlpHeaders | mbti-arcade/app/observability.py:161-174 | the loop fills the dict item by item, a later item overwriting an earlier one with the same key; empty or missing input gives the empty dict |
| Observability.KeyPresent | mbti-arcade/app/observability.py:166-173 | a key is present exactly when some item assigns it |
| Observability.LastItemWins | mbti-arcade/app/observability.py:173 | a present key holds the value of the last item assigning it |
| Observability.SplitAtFirstEquals | mbti-arcade/app/observability.py:169 | only the first "=" splits an item, so a value may itself contain "=" |
| Settings.NonEmpty | mbti-arcade/app/settings.py:21-23 | exactly the non-empty pieces, in order |
| Settings.Dedup | mbti-arcade/app/settings.py:26-27 | the first occurrence of each piece, in order of first occurrence |
| Settings.Chunks | mbti-arcade/app/settings.py:20-21 | the stripped comma-separated pieces of the raw host list |
| Settings.CleanHosts | mbti-arcade/app/settings.py:18-28 | the cleaned host list for the raw value |
| Settings.CleanChunks | mbti-arcade/app/settings.py:19-28 | ["*"] when any piece is "*", otherwise the de-duplicated non-empty pieces |
| Settings.DedupDistinct | mbti-arcade/app/settings.py:26-27 | the result keeps exactly one copy of each entry |
| Settings.DedupOrder | mbti-arcade/app/settings.py:26-27 | entries appear in the order of their first occurrence in the input |
| Settings.CleanHostsShape | mbti-arcade/app/settings.py:18-28 | no empty and no repeated entry, and every non-empty piece appears unless a "*" collapses the list to ["*"] |
| Settings.LoadAllowedHosts | mbti-arcade/app/settings.py:50-66 | ["*"] is kept as is; otherwise the declared hosts stay in front, an undeclared canonical host (netloc, else path, stripped) comes right after them, then exactly the defaults not yet present, in their own order; so every default is present, nothing else is added and nothing repeats |
| Settings.ExtendHosts | mbti-arcade/app/settings.py:56-64 | the result is exactly the declared hosts, then the canonical host if undeclared, then the defaults absent from those, in default order; with no repeats and nothing else |
| Settings.Absent | mbti-arcade/app/settings.py:62-64 | an entry is kept exactly when it is listed and not already present |
| Settings.AbsentSnoc | mbti-arcade/app/settings.py:62-64 | considering one more default appends it exactly when it is not already present |
| Settings.ExtendedShape | mbti-arcade/app/settings.py:56-64 | the list declared + undeclared canonical + absent defaults starts with the declared hosts, holds the canonical host right after them when undeclared, holds every default, repeats nothing and holds nothing else |
| Settings.CalculateServiceBaseUrl | mbti-arcade/app/settings.py:34-47 | the first of the two settings non-empty once stripped is the one used, trimmed exactly as SlashTrimmed defines rstrip("/") ("/" when only slashes remain); the default URL when both are empty |
| Settings.Normalized | mbti-arcade/app/settings.py:44-45 | the candidate trimmed as SlashTrimmed says: "/" for a candidate of slashes only, otherwise its longest prefix not ending in a slash, with only slashes cut; never empty |
| Settings.SlashTrimmedUnique | mbti-arcade/app/settings.py:44-45 | at most one string is the trimmed form of a candidate, so the normaliser's result is determined |
| Schemas.DimIndex | mbti-arcade/app/schemas.py:17 | the position of each axis in DIMENSIONS: the entry there is that axis |
| Schemas.ValidateDim | mbti-arcade/app/schemas.py:31-37 | the value upper-cased is returned when it names an axis, and the unsupported-dimension error otherwise |
| Schemas.ValidateDimAnyCase | mbti-arcade/app/schemas.py:33-37 | each axis name is accepted in any letter case and normalised to upper case |
| Schemas.ValidateSign | mbti-arcade/app/schemas.py:39-44 | the sign is accepted unchanged exactly when it is -1 or 1 |
| Schemas.ValidTypesAreCombinations | mbti-arcade/app/schemas.py:218-235 | VALID_MBTI_TYPES is exactly the 16 combinations of one pole per axis |
| Schemas.ValidateMbtiValue | mbti-arcade/app/schemas.py:245-259 | with source "input" an empty value and a value that is no type upper-cased are refused, a valid one is returned upper-cased; any other source yields None |
| Schemas.MbtiValueLowerAccepted | mbti-arcade/app/schemas.py:250-257 | any valid type written in lower case is accepted and returned in upper case |
| Questions.PayloadRoundTrip | mbti-arcade/app/data/questions.py:28-39 | the payload carries every field of the seed unchanged, so the seed can be read back from it |
| Questions.InContexts | mbti-arcade/app/data/questions.py:10-13 | the seeds whose context is one of the given contexts, in seed order |
| Questions.ByIdTotal | mbti-arcade/app/data/questions.py:52 | ordering seeds by id is a total preorder, so the stable sort applies |
| Questions.PayloadsOf | mbti-arcade/app/data/questions.py:53 | one payload per seed, in order |
| Questions.ModeSeedsSpec | mbti-arcade/app/data/questions.py:42-53 | a mode outside MODE_TO_CONTEXTS is rejected; otherwise the questions are exactly the seeds of the mode's contexts, each once per occurrence, in ascending id order |
| Questions.ModeSeeds | mbti-arcade/app/data/questions.py:42-53 | an unknown mode, after lower-casing, is the UnsupportedMode error carrying the mode as given; otherwise as many seeds as the mode's contexts hold |
| Questions.QuestionsForMode | mbti-arcade/app/data/questions.py:42-53 | fails exactly for a mode outside MODE_TO_CONTEXTS; otherwise the payloads come in ascending id order and each belongs to one of the mode's contexts |
| Questions.ModeAnyCase | mbti-arcade/app/data/questions.py:43 | the mode's letter case does not change the answer |
| Questions.BasicAndWork | mbti-arcade/app/data/questions.py:14-21 | the basic mode asks exactly the common questions and the work mode exactly the work questions |
| ProblemDetails.Kept | mbti-arcade/app/utils/problem_details.py:92 | the loc parts other than "body", "query" and "path", in order |
| ProblemDetails.Strings | mbti-arcade/app/utils/problem_details.py:92-94 | str() of every loc part, in order |
| ProblemDetails.PathOf | mbti-arcade/app/utils/problem_details.py:91-94 | the kept parts joined with "."; when that is empty the whole loc joined; when that is empty too "non_field_errors" |
| ProblemDetails.Mapped | mbti-arcade/app/utils/problem_details.py:88-97 | the mapping after the given errors: each message, "Invalid value" by default, appended to its path's list |
| ProblemDetails.MapValidationErrors | mbti-arcade/app/utils/problem_details.py:88-97 | the loop's result is the mapping of all errors |
| ProblemDetails.MappedGroups | mbti-arcade/app/utils/problem_details.py:88-97 | a path is a key exactly when some error has it, and its list holds exactly that path's messages in input order |
| ProblemDetails.MappedEmpty | mbti-arcade/app/utils/problem_details.py:88-97 | the mapping is empty exactly when there are no errors |
| ProblemDetails.SourceSegmentIgnored | mbti-arcade/app/utils/problem_details.py:92 | a loc behind a "body", "query" or "path" segment maps like the loc alone |
| ProblemDetails.KeptPrefix | mbti-arcade/app/utils/problem_details.py:92 | a leading source segment is dropped from the kept parts |
| ProblemDetails.MissingModeField | mbti-arcade/tests/test_problem_details.py:12-20 | a missing body field "mode" is reported as "Field required" under "mode" |
| ProblemDetails.PathFallbacks | mbti-arcade/app/utils/problem_details.py:93-94 | a loc of source segments only falls back to the full loc joined, and an empty loc to "non_field_errors" |
| ProblemDetails.NormalizeDetail | mbti-arcade/app/utils/problem_details.py:37-42 | a string detail is kept, a missing one replaced by the fallback, anything else printed |
| ProblemDetails.DefaultTitle | mbti-arcade/app/utils/problem_details.py:30-34 | the standard reason phrase for a known status and "Error" for any other |
| ProblemDetails.ProblemResponseShape | mbti-arcade/app/utils/problem_details.py:45-63 | the body carries its arguments unchanged, its type is the base followed by the suffix, and errors are present exactly when the mapping is non-empty |
| ProblemDetails.FromException | mbti-arcade/app/utils/problem_details.py:66-77 | the exception's own instance unless missing or empty, otherwise the request path |
| ProblemDetails.HttpSuffixRoundTrip | mbti-arcade/app/utils/problem_details.py:80-85 | the status can be read back from the type "http-<status>", and such a body has no errors member |
| ProblemDetails.FromHttpException | mbti-arcade/app/utils/problem_details.py:80-85 | the status and path are kept, there is no errors member, the title is the standard phrase or "Error", the detail is the given text or else the title, and the type ends in "http-<status>" |
| ProblemDetails.NotFoundBody | mbti-arcade/tests/test_problem_details.py:2-10 | a 404 without detail has title and detail "Not Found", the request path as instance and a type ending in "/http-404" |
| ProblemDetails.ValidationBody | mbti-arcade/app/utils/problem_details.py:100-110 | a validation failure is a 422 "Validation Failed" body whose errors are present exactly when there were errors, listing each path's messages |
| ProblemDetails.FromValidationError | mbti-arcade/app/utils/problem_details.py:100-110 | a 422 body for the path whose type ends in "validation" and whose errors member is present exactly when there were errors |
| ProblemDetails.InternalServerError | mbti-arcade/app/utils/problem_details.py:113-121 | a 500 body with the "internal" suffix and no errors member |
| Scoring.FirstEmptyDim | mbti-arcade/app/services/scoring.py:40-42 | the first axis in DIMENSIONS order that no answer covers, none exactly when every axis is covered |
| Scoring.ComputeNorms | mbti-arcade/app/services/scoring.py:23-44 | the two loops return exactly the per-axis mean of sign * (value - 3) / 2, or the first error raised |
| Scoring.RejectedAnswerFails | mbti-arcade/app/services/scoring.py:29-33 | a single unknown question or out-of-range value anywhere makes the whole call fail |
| Scoring.NormsSucceedIff | mbti-arcade/app/services/scoring.py:23-44 | compute_norms succeeds exactly when every answer names a known question with a value in 1..5 and every axis is answered at least once |
| Scoring.NormsInUnitRange | mbti-arcade/app/services/scoring.py:35-43 | with signs of +1 or -1 every norm lies in [-1, 1] |
| Scoring.NormsExample | mbti-arcade/tests/test_aggregator.py:45-56 | the fixture answers give the norms the scoring test expects |
| Scoring.RadarRescales | mbti-arcade/app/services/scoring.py:47-48 | the radar scale (value + 1) * 50 maps [-1, 1] onto [0, 100] and can be undone |
| Scoring.NormToRadar | mbti-arcade/app/services/scoring.py:47-48 | the radar value reads back as the norm through RadarToNorm, and a norm in [-1, 1] lands in [0, 100] on every axis |
| Scoring.WeightForRelation | mbti-arcade/app/services/scoring.py:51-53 | never raises; the weight lies in [1.0, 1.5], and an absent or empty tag weighs 1.0 |
| Scoring.WeightIgnoresCase | mbti-arcade/app/services/scoring.py:52 | the tag is matched case-insensitively |
| Scoring.WeightTable | mbti-arcade/app/services/scoring.py:8-16 | the table's weights for partner, couple, core_friend, family, coworker and friend, and 1.0 for an unknown tag |
| Scoring.SumProductsAtLeast | mbti-arcade/app/services/scoring.py:57 | weighted values bounded below by lo give a weighted sum of at least lo times the total weight |
| Scoring.SumProductsAtMost | mbti-arcade/app/services/scoring.py:57 | weighted values bounded above by hi give a weighted sum of at most hi times the total weight |
| Scoring.WeightedMeanBetween | mbti-arcade/app/services/scoring.py:56-61 | with non-negative weights of positive sum the weighted mean lies between the smallest and the largest value |
| Scoring.WeightedVarianceNonNegative | mbti-arcade/app/services/scoring.py:64-70 | the quantity whose square root weighted_sigma takes is never negative |
| Scoring.Column | mbti-arcade/app/services/scoring.py:86 | the k-th entry is the k-th rater's value on the axis |
| Scoring.ComputeGapMetrics | mbti-arcade/app/services/scoring.py:73-93 | raises exactly when the norms or the weights are empty; otherwise each axis holds the weighted mean, the weighted variance and the mean minus the self norm, and the gap score is the mean absolute gap times 100 |
| Scoring.GapMetricsOf | mbti-arcade/app/services/scoring.py:73-93 | raises exactly for empty norms or weights; otherwise each axis of the aggregate is the weighted mean of that axis's column, and each gap is the aggregate minus the self norm |
| Scoring.GapBounded | mbti-arcade/app/services/scoring.py:85-92 | with norms in [-1, 1] and non-negative weights each aggregated axis stays in [-1, 1], each gap is at most 2 in size and the gap score at most 200 |
| Scoring.GapExample | mbti-arcade/tests/test_aggregator.py:58-75 | self at 0 and two raters weighted 1.0 and 1.5 give the aggregate (-0.4, 0.7, 0.1, -0.4), an EI variance of 0.24 and a gap score of 40 |
| Aggregator.GroupInto | mbti-arcade/app/services/aggregator.py:84-88 | the defaultdict(list) loop groups the rows by key: keys in first-seen order, each with its rows in input order |
| Aggregator.AnswersOf | mbti-arcade/app/services/aggregator.py:118 | one (question id, value) pair per row, in row order |
| Aggregator.SurvivingWeights | mbti-arcade/app/services/aggregator.py:119-125 | the weight of each surviving rater, taken from the relation tag of the rater's first row |
| Aggregator.CollectRaters | mbti-arcade/app/services/aggregator.py:115-125 | the loop returns the norms of exactly the raters compute_norms accepts, each with its weight; a refused rater is skipped, not fatal |
| Aggregator.SurvivorOrigin | mbti-arcade/app/services/aggregator.py:117-125 | the k-th surviving norm is the accepted norm of some group, paired with the weight of that group's first relation tag |
| Aggregator.SurvivorCount | mbti-arcade/app/services/aggregator.py:117-125 | at most every rater survives, and every rater does when compute_norms accepts them all |
| Aggregator.AggregateShape | mbti-arcade/app/services/aggregator.py:91-184 | fails exactly when the session has no self rows or they do not score; on success the other-side fields are all present or all absent, absent exactly when no rater survives, and n counts the survivors |
| Aggregator.AggregateBounded | mbti-arcade/app/services/aggregator.py:127-137 | with signs of +1 or -1 every populated aggregate axis lies in [-1, 1] and the gap score in [0, 200] |
| Aggregator.SumAtLeastFirst | mbti-arcade/app/services/aggregator.py:56-61 | a non-empty list of weights of at least 1 has a positive sum, so the weighted mean divides |
| Aggregator.AggregateTable.constructor | mbti-arcade/app/services/aggregator.py:139-142 | the aggregate table starts empty |
| Aggregator.AggregateTable.Recalculate | mbti-arcade/app/services/aggregator.py:91-184 | the session's row is found or created and every column overwritten from the aggregate; a raised error writes nothing |
| Aggregator.Submitted | mbti-arcade/app/services/aggregator.py:243 | the members whose answers_submitted_at is set, in order |
| Aggregator.PerceivedTypes | mbti-arcade/app/services/aggregator.py:257-259 | the submitted members' perceived types that are present and non-empty, in order |
| Aggregator.TypeCounts | mbti-arcade/app/services/aggregator.py:257-259 | Counter(types): each distinct type once, in order of first appearance, with its number of occurrences |
| Aggregator.SummarizeRelation | mbti-arcade/app/services/aggregator.py:242-275 | the summary of one relation group, built from its submitted members |
| Aggregator.OpenSummary | mbti-arcade/app/services/aggregator.py:255-274 | past the gate the summary carries the averaged axes, the majority fields and the perception gap index when a self norm exists |
| Aggregator.PrivacyGate | mbti-arcade/app/services/aggregator.py:243-256 | respondent_count counts the submitted members, and every other field stays None unless at least three have submitted and one carries an axes payload |
| Aggregator.AllGated | mbti-arcade/app/services/aggregator.py:242-309 | the privacy gate holds for every summary the recalculation lists |
| Aggregator.TopIsMostCommon | mbti-arcade/app/services/aggregator.py:261-262 | the first entry of most_common is a most frequent type, with its true count; among equally frequent types it is the one that appeared first: every occurrence of another type with that count comes after some occurrence of it |
| Aggregator.TopPosition | mbti-arcade/app/services/aggregator.py:261-262 | the first entry of most_common is the Counter entry that no earlier Counter entry matches in count (the stable sort keeps ties in Counter order) |
| Aggregator.RunnerUp | mbti-arcade/app/services/aggregator.py:264-265 | the second entry of most_common is another type that is no more frequent |
| Aggregator.MajorityFields | mbti-arcade/app/services/aggregator.py:260-270 | past the gate the top fraction is the most common type's share of the respondents, at most 1 and at least every other type's share; the runner-up's share is no larger; consensus is their difference, or the top share alone |
| Aggregator.CountIsOccurrences | mbti-arcade/app/services/aggregator.py:257-259 | the i-th Counter entry counts the occurrences of its type, at least one |
| Aggregator.TypeIndex | mbti-arcade/app/services/aggregator.py:257-259 | every perceived type has a Counter entry |
| Aggregator.CountsOnce | mbti-arcade/app/services/aggregator.py:257-259 | Counter entries name distinct types |
| Aggregator.OccurrencesBounded | mbti-arcade/app/services/aggregator.py:257-263 | no type occurs more often than there are submitted members, so every fraction is at most 1 |
| Aggregator.ByRelationValueTotal | mbti-arcade/app/services/aggregator.py:314 | ordering by relation value is a total preorder, so the stable sort applies |
| Aggregator.GroupSummaries | mbti-arcade/app/services/aggregator.py:242-309 | one summary per relation group, in group order, each for that group's relation |
| Aggregator.SortByRelation | mbti-arcade/app/services/aggregator.py:314 | sorting summaries of distinct relations by relation value keeps them distinct and puts them in ascending order |
| Aggregator.GroupRelations | mbti-arcade/app/services/aggregator.py:236-238 | the group summaries carry distinct relations, exactly the participants' relations |
| Aggregator.SummariesPerRelation | mbti-arcade/app/services/aggregator.py:221-316 | each relation of the participants is listed exactly once, no other, in ascending order of relation value |
| Aggregator.StoredSummaries | mbti-arcade/app/services/aggregator.py:276-295 | after the loop the session has one row per listed relation holding that relation's summary, and every other row is as before |
| Aggregator.GroupSummariesSnoc | mbti-arcade/app/services/aggregator.py:242-309 | the summaries of one more group are those before followed by that group's summary |
| Aggregator.RelationAggregateTable.constructor | mbti-arcade/app/services/aggregator.py:276-286 | the relation-aggregate table starts empty |
| Aggregator.RelationAggregateTable.Recalculate | mbti-arcade/app/services/aggregator.py:221-316 | an unknown session yields an empty summary and writes nothing; otherwise each relation's row is found or created and overwritten, and the summaries are returned sorted by relation value |
| Responses.ProvidedIds | mbti-arcade/app/routers/responses.py:39 | the submitted answers' question ids, one per answer, in submission order |
| Responses.ExpectedIds | mbti-arcade/app/routers/responses.py:37-38 | the ValueError UnsupportedMode(mode) exactly when the lower-cased mode is unknown; otherwise the id of each payload questions_for_mode returns, in its order |
| Responses.ExpectedIdsOfContexts | mbti-arcade/app/routers/responses.py:37-38 | for a known mode, an id is expected exactly when some seed of one of the mode's contexts carries it |
| Responses.ValidationIff | mbti-arcade/app/routers/responses.py:36-75 | validate_answers fails with the mode error exactly for an unknown mode, and reports no problem exactly when the submitted ids are distinct and are exactly the ids of the seeds of the mode's contexts |
| Responses.CompareIds | mbti-arcade/app/routers/responses.py:39-75 | the messages in order: count mismatch, duplicates, unexpected ids, missing ids; empty when the answers are accepted |
| Responses.Outside | mbti-arcade/app/routers/responses.py:60-66 | the elements of the list outside the set, in order |
| Responses.FindRepeats | mbti-arcade/app/routers/responses.py:48-54 | the seen/duplicates loop lists every occurrence of an id after its first, in input order |
| Responses.RepeatsMembers | mbti-arcade/app/routers/responses.py:48-54 | an id is listed as a duplicate exactly when it occurs at least twice |
| Responses.DuplicateList | mbti-arcade/app/routers/responses.py:56-58 | the ids given more than once, strictly ascending |
| Responses.UnexpectedList | mbti-arcade/app/routers/responses.py:60 | the provided ids that are not questions of the mode, strictly ascending |
| Responses.MissingList | mbti-arcade/app/routers/responses.py:64 | the mode's question ids not provided, strictly ascending |
| Responses.ValidateAnswers | mbti-arcade/app/routers/responses.py:36-75 | the mode's question ids are derived from the seeds (or the unknown-mode error returned), then the problems against them exactly as Validation gives them, whose meaning ValidationIff states |
| Responses.NonEmptyList | mbti-arcade/app/routers/responses.py:56-66 | a listing is non-empty exactly when it has a member |
| Responses.ClassOccurs | mbti-arcade/app/routers/responses.py:43-66 | each message occurs exactly when its condition holds: a count mismatch, a repeated id, a provided id that is no question of the mode, a question without an answer |
| Responses.NoProblemsIff | mbti-arcade/app/routers/responses.py:68-75 | no message is produced exactly when no failure class occurs |
| Responses.AnswersValidIff | mbti-arcade/app/routers/responses.py:36-75 | the answers are accepted exactly when their ids are the mode's question ids, each once |
| Responses.ByQuestionIdTotal | mbti-arcade/app/routers/responses.py:136 | ordering answers by question id is a total preorder, so the stable sort applies |
| Responses.SortedStrictly | mbti-arcade/app/routers/responses.py:136 | sorting answers of distinct questions puts them in strictly ascending question order |
| Responses.RaterHashOrderFree | mbti-arcade/app/routers/responses.py:134-139 | with one answer per question the rater hash does not depend on the order of submission |
| Responses.DeleteSelf | mbti-arcade/app/routers/responses.py:96 | exactly the session's self rows are removed, the others kept in order |
| Responses.DeleteRater | mbti-arcade/app/routers/responses.py:187-190 | exactly the rater's rows in the session are removed, the others kept in order |
| Responses.AnswersFrom | mbti-arcade/app/routers/responses.py:98-105 | one (question id, value) pair per payload answer, in order |
| Responses.SelfReplacement | mbti-arcade/app/routers/responses.py:96-105 | after delete-then-insert the session's self answers are exactly the payload's and every other session's are as before |
| Responses.ResponsesFor | mbti-arcade/app/routers/responses.py:192-201 | one row per payload answer, carrying the session, the rater hash and the relation tag |
| Responses.OtherReplacement | mbti-arcade/app/routers/responses.py:186-201 | after delete-then-insert the rater's rows in the session are exactly the payload's and every other rater's are as before |
| Responses.RatersAfterReplacement | mbti-arcade/app/routers/responses.py:186-201 | the raters afterwards are the old ones less this one, plus this one when the payload is non-empty |
| Responses.CapacityKept | mbti-arcade/app/routers/responses.py:163-184 | the capacity check keeps a session at or below max_raters distinct raters |
| Responses.ResponseStore.constructor | mbti-arcade/app/routers/responses.py:79-131 | the stores start with the given sessions and no responses |
| Responses.ResponseStore.SubmitSelf | mbti-arcade/app/routers/responses.py:79-131 | 404 for an unknown session, 410 once expired, the unknown-mode error when the session's mode has no questions, 400 for an answer set that does not match the questions of the session's mode; a valid request succeeds exactly when the aggregate of the payload scores, and otherwise fails with that scoring error; on success the self rows are replaced and the aggregate row rewritten, on any error nothing changes |
| Responses.ResponseStore.SubmitOther | mbti-arcade/app/routers/responses.py:143-227 | 404 for an unknown invite, 410 once expired, the unknown-mode error when the session's mode has no questions, 400 for an answer set that does not match the questions of the session's mode, 429 for a new rater past capacity; an admitted request succeeds exactly when the aggregate over the replaced rater rows scores, and otherwise fails with that scoring error; on any error nothing changes |
| Participants.ComputeMbti | mbti-arcade/app/routers/participants.py:70-78 | one of the sixteen valid types whose letter on each axis is the positive pole exactly when that axis is at least zero, a missing axis counting as zero |
| Participants.PayloadOf | mbti-arcade/app/routers/participants.py:210 | the axes payload holds the four norms under their axis names |
| Participants.SessionRows | mbti-arcade/app/routers/participants.py:292-297 | the session's participants, in creation order |
| Participants.IndexOfId | mbti-arcade/app/routers/participants.py:149 | the position of the row carrying the id, when there is one |
| Participants.RaterHashInjective | mbti-arcade/app/routers/participants.py:45-46 | distinct participants get distinct rater hashes, so replacing one participant's other responses never touches another's |
| Participants.DeleteAnswers | mbti-arcade/app/routers/participants.py:177-179 | exactly the participant's answer rows are removed, the others kept in order |
| Participants.AnswerReplacement | mbti-arcade/app/routers/participants.py:176-204 | resubmission replaces rather than adds: the participant's answers are exactly the payload's and every other participant's are as before |
| Participants.SessionRowsSnoc | mbti-arcade/app/routers/participants.py:108-118 | appending a participant extends its session's list by that row and no other session's list |
| Participants.SessionRowsUpdate | mbti-arcade/app/routers/participants.py:210-214 | updating a row in place, keeping its session, leaves every session's participant count as it was |
| Participants.IdsBelowUpdate | mbti-arcade/app/routers/participants.py:210-214 | rewriting a row in place, keeping its id, keeps every id below the next-id bound |
| Participants.Preview | mbti-arcade/app/routers/participants.py:254-320 | the preview lists the recalculated summaries and the participants in creation order, blanking every figure unless the session has at least three respondents |
| Participants.PreviewRevealsOnlyGated | mbti-arcade/app/routers/participants.py:274-310 | a relation's figures are shown only when the session has at least three respondents overall and that relation has at least three submitted members |
| Participants.ParticipantStore.constructor | mbti-arcade/app/routers/participants.py:86-136 | the store starts with the given sessions and no participants or answers |
| Participants.ParticipantStore.Register | mbti-arcade/app/routers/participants.py:86-136 | 404 for an unknown invite, 410 once expired, 429 once the session has max_raters participants, and success in every other case: a new participant with the next id and no answers is appended |
| Participants.ParticipantStore.Submit | mbti-arcade/app/routers/participants.py:144-247 | the plan's error (404, 410, 400 or a payload scoring error) when planning fails; otherwise success exactly when the session aggregate over the planned rows scores, else that scoring error; on success the answers and other responses are replaced, the payload and type stored and both aggregates recalculated, on any error nothing changes |
| Participants.ParticipantStore.Commit | mbti-arcade/app/routers/participants.py:176-233 | succeeds exactly when the session aggregate over the planned rows scores, failing with that scoring error otherwise; on success the planned rows are stored and both aggregates recalculated, on an error every store is restored |
| Participants.ParticipantStore.Recompute | mbti-arcade/app/routers/participants.py:216-217 | recalculate_aggregate, then recalculate_relation_aggregates reading the self norm the first stored; an error from the first writes nothing |
| Participants.MakePlan | mbti-arcade/app/routers/participants.py:149-214 | the checks and the rows of the submission are exactly those PlanOf describes |
| Participants.Admission | mbti-arcade/app/routers/participants.py:149-171 | the checks in order: the participant exists, its session is active, the payload is non-empty and passes validate_answers against the questions of the session's mode (an unknown mode gives the mode error) |
| Participants.Admit | mbti-arcade/app/routers/participants.py:149-171 | the admission check returns the same verdict as Admission |
| CoupleScoring.ScaleCodes | mbti-arcade/app/core_scoring/__init__.py:18-27 | each scale's codes are its name followed by the ordinals 1 to 6 |
| CoupleScoring.AllCodes | mbti-arcade/app/core_scoring/__init__.py:46-48 | the keys of QUESTION_TO_SCALE in order: the six codes of every scale, scale by scale |
| CoupleScoring.AllCodesDistinct | mbti-arcade/app/core_scoring/__init__.py:46-48 | the 48 codes are pairwise distinct and each maps back to its own scale |
| CoupleScoring.ScaleCodesInAll | mbti-arcade/app/core_scoring/__init__.py:46-48 | the codes of each scale are that scale's slice of QUESTION_TO_SCALE |
| CoupleScoring.ScoreItem | mbti-arcade/app/core_scoring/__init__.py:64-84 | a value outside 0..10 for SF1 or 0..4 otherwise is refused; a reverse-keyed item scores 4 - value, SF1 scores value * 0.4, any other item its value; every score lies in 0..4 |
| CoupleScoring.ScoreItemKeying | mbti-arcade/app/core_scoring/__init__.py:79-84 | a higher answer scores lower on a reverse-keyed item and higher on any other, and a reverse-keyed answer and its score add up to 4 |
| CoupleScoring.MissingCodes | mbti-arcade/app/core_scoring/__init__.py:92-95 | the codes without an answer, in the order of the codes |
| CoupleScoring.ItemScores | mbti-arcade/app/core_scoring/__init__.py:92-96 | the scores of the answered codes, in order |
| CoupleScoring.ScaleMean | mbti-arcade/app/core_scoring/__init__.py:87-106 | the walk collects the scores and the missing codes and aborts at the first refused answer; then missing codes, then an empty scale, raise, and otherwise the mean is returned |
| CoupleScoring.ScanCodes | mbti-arcade/app/core_scoring/__init__.py:91-97 | the walk stops at the first refused answer; otherwise it yields exactly the item scores of the answered codes and the unanswered codes, both in code order |
| CoupleScoring.CompleteScoresAll | mbti-arcade/app/core_scoring/__init__.py:92-96 | with no refused answer and nothing missing every code contributes a score |
| CoupleScoring.ScaleMeanSucceedsIff | mbti-arcade/app/core_scoring/__init__.py:87-106 | the mean succeeds exactly when every code is answered within range and there is at least one code, and it then averages all of them |
| CoupleScoring.ScaleMeanInRange | mbti-arcade/app/core_scoring/__init__.py:106 | a scale mean lies in 0..4 |
| CoupleScoring.ScaleMeanListsMissing | mbti-arcade/app/core_scoring/__init__.py:98-101 | when no answer is refused but a code is unanswered, the error lists exactly the unanswered codes, sorted |
| CoupleScoring.ScaleMeansOver | mbti-arcade/app/core_scoring/__init__.py:109-112 | the dict comprehension over the scales aborts with the first failing scale's error, otherwise maps every scale to its mean |
| CoupleScoring.CompleteAnswersScore | mbti-arcade/app/core_scoring/__init__.py:109-112 | an answer set covering every code within range yields all eight scale means, each in 0..4 |
| CoupleScoring.DeltaItems | mbti-arcade/app/core_scoring/__init__.py:132-141 | abs(guess - partner's self) for each code present in both answer sets, in QUESTION_TO_SCALE order |
| CoupleScoring.ScaleValues | mbti-arcade/app/core_scoring/__init__.py:144-147 | the deltas of the codes of one scale, in order |
| CoupleScoring.ScaleDelta | mbti-arcade/app/core_scoring/__init__.py:143-151 | each scale's mean item delta, 0.0 for a scale without items |
| CoupleScoring.ScaleDeltaBounds | mbti-arcade/app/core_scoring/__init__.py:143-151 | every per-scale delta is non-negative and, with answers in 0..10, at most 10 |
| CoupleScoring.DeltaItemsDistinct | mbti-arcade/app/core_scoring/__init__.py:145-147 | every delta item belongs to QUESTION_TO_SCALE, so each value lands in exactly one scale's average |
| CoupleScoring.CombinedOf | mbti-arcade/app/core_scoring/__init__.py:169-173 | A's deltas copied, then each of B's deltas merged as max(combined.get(code, 0.0), value) |
| CoupleScoring.ByValueDescTotal | mbti-arcade/app/core_scoring/__init__.py:175 | ordering by value, largest first, is a total preorder, so the stable sort applies |
| CoupleScoring.SliceLength | mbti-arcade/app/core_scoring/__init__.py:176 | the length of xs[:limit] under Python's slicing rules, negative limits included |
| CoupleScoring.TopCodes | mbti-arcade/app/core_scoring/__init__.py:176 | the codes of the first limit ordered entries |
| CoupleScoring.RankTopDeltaItems | mbti-arcade/app/core_scoring/__init__.py:161-176 | the two loops fill combined, and the result is the codes of the limit largest combined deltas |
| CoupleScoring.CombinedValues | mbti-arcade/app/core_scoring/__init__.py:169-173 | exactly the codes of either partner are combined, each with the larger delta, a missing one counting as 0.0 |
| CoupleScoring.RankedByCombinedDelta | mbti-arcade/app/core_scoring/__init__.py:161-176 | the ranked codes come from either partner, in non-increasing combined delta, min(limit, number of codes) of them |
| CoupleScoring.CountAtLeastThree | mbti-arcade/app/core_scoring/__init__.py:203 | the number of the given codes answered 3 or more, an absent code counting as 0 |
| CoupleScoring.FlagOrderRanks | mbti-arcade/app/core_scoring/__init__.py:194-209 | the four flags are distinct and numbered 0..3 in checking order |
| CoupleScoring.FlagsRaisedIff | mbti-arcade/app/core_scoring/__init__.py:194-209 | each flag is raised exactly when its rule holds, and no other flag is raised |
| CoupleScoring.FlagsOrdered | mbti-arcade/app/core_scoring/__init__.py:194-211 | the raised flags appear in the fixed checking order |
| CoupleScoring.FlagRules | mbti-arcade/app/core_scoring/__init__.py:184-211 | the rules append SAFETY (high), PURSUIT_WITHDRAW (mid), COGNITIVE (mid) and PLANNING_GAP (low) in that order, each when its threshold is met |
| CoupleScoring.FlagCards | mbti-arcade/app/core_scoring/__init__.py:266-277 | one safety card per high-severity flag, in flag order |
| CoupleScoring.CombinedScales | mbti-arcade/app/core_scoring/__init__.py:280-282 | max(delta_scales_a.get(scale, 0.0), delta_scales_b.get(scale, 0.0)) for every scale |
| CoupleScoring.ScaleCards | mbti-arcade/app/core_scoring/__init__.py:286-299 | a scale card for each ordered entry that has a library card |
| CoupleScoring.BuildInsights | mbti-arcade/app/core_scoring/__init__.py:258-302 | the safety cards first, then the scale cards by non-increasing combined delta, at most three in all |
| CoupleScoring.ScaleCardsLoop | mbti-arcade/app/core_scoring/__init__.py:286-299 | the loop appends exactly the cards ScaleCards lists, skipping scales without a card |
| CoupleScoring.ScaleCardsKeepAll | mbti-arcade/app/core_scoring/__init__.py:214-255 | every scale has a library card, so every scale is carded |
| CoupleScoring.SortedScales | mbti-arcade/app/core_scoring/__init__.py:284 | the sorted entries are the combined per-scale deltas in non-increasing order |
| CoupleScoring.CutKeepsOrder | mbti-arcade/app/core_scoring/__init__.py:302 | cutting flag cards followed by ordered scale cards to three keeps both orders |
| CoupleScoring.InsightsOrdered | mbti-arcade/app/core_scoring/__init__.py:258-302 | safety cards come before scale cards, and scale cards are in non-increasing delta order |
| CoupleScoring.InsightScoresAreMaxDeltas | mbti-arcade/app/core_scoring/__init__.py:280-294 | each scale card carries the larger partner delta of its scale |
| CoupleScoring.InsightsWithoutSafetyFlags | mbti-arcade/app/core_scoring/__init__.py:258-302 | without a high-severity flag the insights are exactly three scale cards |
| CoupleScoring.GapGrade | mbti-arcade/app/core_scoring/__init__.py:308-315 | green below 0.8, amber below 1.6, red from 1.6 on |
| CoupleScoring.GapGradeMonotone | mbti-arcade/app/core_scoring/__init__.py:308-315 | a larger delta never earns a milder grade |
| CoupleScoring.FirstMaxIndex | mbti-arcade/app/core_scoring/__init__.py:327-331 | the position of the first maximum, the one max() with a key picks |
| CoupleScoring.MergedDeltas | mbti-arcade/app/core_scoring/__init__.py:321-324 | the larger partner delta of each scale, in SCALES order |
| CoupleScoring.SummarizeGap | mbti-arcade/app/core_scoring/__init__.py:318-337 | the mean merged delta, the first scale with the largest merged delta and its value, and the grade of the mean |
| CoupleScoring.MeanAtMostTop | mbti-arcade/app/core_scoring/__init__.py:325-336 | the mean delta never exceeds the top delta, so a red mean implies a red top scale |
| CoupleService.QuestionCodesSize | mbti-arcade/app/couple/services.py:47 | QUESTION_CODES, the registry's keys, holds exactly 48 codes |
| CoupleService.CompleteIffAllCodes | mbti-arcade/app/couple/services.py:451-452 | for a dict of registry codes, the count test of _is_complete holds exactly when every registry code is answered |
| CoupleService.AsMapKnown | mbti-arcade/app/couple/services.py:157-161 | once _ensure_question_codes has passed, the stored dict's keys are registry codes |
| CoupleService.Pairs | mbti-arcade/app/couple/services.py:439-448 | the submitted items as (code, value) pairs, one per item and in order |
| CoupleService.AnswersDictSpec | mbti-arcade/app/couple/services.py:437-449 | _answers_to_dict fails exactly when a code repeats, naming the first repeated code; otherwise it yields exactly the submitted pairs with distinct keys |
| CoupleService.DictErrorSticks | mbti-arcade/app/couple/services.py:439-447 | once a prefix of the items has raised duplicate-answer, the whole list raises the same error |
| CoupleService.AnswersToDict | mbti-arcade/app/couple/services.py:437-449 | the loop over the items returns the dict, or the duplicate-answer error, that the specification function gives |
| CoupleService.Unknown | mbti-arcade/app/couple/services.py:51 | a code is listed exactly when it is a key of the dict and not a registry code |
| CoupleService.EnsureQuestionCodes | mbti-arcade/app/couple/services.py:50-59 | no error exactly when every key is a registry code; otherwise a question-invalid error listing exactly the unknown codes, sorted and without repeats |
| CoupleService.AdmissionIff | mbti-arcade/app/couple/services.py:146-178 | a submission passes every check of upsert_responses exactly when the token names a participant, both lists are free of repeats and unknown codes, and the stage step is allowed; the admitted dicts are the submissions |
| CoupleService.CheckSubmission | mbti-arcade/app/couple/services.py:146-178 | the checks run in source order return what the admission function gives |
| CoupleService.StageErrors | mbti-arcade/app/couple/services.py:149-178 | for a well-formed submission, stage-invalid exactly on a stage below the session's, stage-order exactly on a skipped stage or a move to stage 3 before the caller's own answers are complete |
| CoupleService.NextStage | mbti-arcade/app/couple/services.py:478-486 | the stage never goes down, reaches at least 2, reaches 3 when all four answer sets are complete, and stays at most 3 |
| CoupleService.NextEvent | mbti-arcade/app/couple/services.py:500-527 | the appended event points at the latest event's hash (none for the first) and keeps the audit log a hash chain |
| CoupleService.ChainPinsBodies | mbti-arcade/app/couple/services.py:506-516 | two hash chains of equal length that end in the same hash, without a digest collision, carry the same event bodies throughout |
| CoupleService.MissingFor | mbti-arcade/app/couple/services.py:312-326 | no error exactly when every registry code is answered; otherwise the error names the group and lists at most ten missing codes, sorted, the smallest ones |
| CoupleService.CombinedSelfScales | mbti-arcade/app/couple/services.py:336-339 | one combined value per scale of A's self means, in the same scale order |
| CoupleService.RawSelfCombined | mbti-arcade/app/couple/services.py:340-343 | one entry per registry code |
| CoupleService.RunPipeline | mbti-arcade/app/couple/services.py:312-364 | the missing checks, the four scale-mean computations and the scoring steps return what the pipeline function gives |
| CoupleService.NoMissingWhenComplete | mbti-arcade/app/couple/services.py:312-326 | four dicts keyed by exactly the registry codes never raise responses-missing |
| CoupleService.FullyAnsweredScores | mbti-arcade/app/couple/services.py:318-331 | a dict answering every registry code within range passes the missing check and compute_scale_means |
| CoupleService.PipelineSucceeds | mbti-arcade/app/couple/services.py:312-364 | four fully answered dicts always yield a result |
| CoupleService.OutputsBounded | mbti-arcade/app/couple/services.py:334-347 | a result has at most five top delta items, at most three insights, and only flags from the fixed flag list |
| CoupleService.Session.constructor | mbti-arcade/app/couple/services.py:82-119 | a new session is at stage 1 with nothing complete, k is visible only for a visible snapshot at or above the threshold, and one "session.created" event starts the log |
| CoupleService.Session.LogEvent | mbti-arcade/app/couple/services.py:500-527 | exactly one event is appended, chained to the previous one |
| CoupleService.Session.UpdateStageOne | mbti-arcade/app/couple/services.py:121-134 | records k and the snapshot, recomputes visibility, raises the stage to at least 2 only for a visible k at or above the threshold, and logs "stage1.updated" |
| CoupleService.Session.ApplyStageOne | mbti-arcade/app/couple/services.py:123-127 | the state changes of update_stage_one before its event |
| CoupleService.Session.MarkCompletion | mbti-arcade/app/couple/services.py:454-486 | only the caller's two flags change, each set by the count test, and the stage moves as NextStage says |
| CoupleService.Session.UpsertResponses | mbti-arcade/app/couple/services.py:143-243 | a rejected submission returns the first failing check's error and changes nothing; an admitted one replaces only the caller's answer sets, moves the stage as NextStage says, logs one event and returns the receipt |
| CoupleService.Session.ApplySubmission | mbti-arcade/app/couple/services.py:180-243 | the stores, the event and the receipt of an admitted submission |
| CoupleService.Session.StoreAnswers | mbti-arcade/app/couple/services.py:180-215 | the caller's two answer sets are replaced and the completion flags and stage recomputed, the other role's flags kept |
| CoupleService.Session.MarkComputed | mbti-arcade/app/couple/services.py:365-369 | the result is stored, the stage is 3, stage 3 is marked complete and the computation time recorded |
| CoupleService.Session.StoreDecisionPacket | mbti-arcade/app/couple/services.py:529-575 | the packet holds the inputs, k state, snapshot and outputs, its digest is SHA-256 of the canonical payload, and it is appended to the packets |
| CoupleService.Session.ComputeResult | mbti-arcade/app/couple/services.py:275-397 | stage-incomplete unless all four flags are set; otherwise the pipeline's result over the stored answers; on success the result is stored at stage 3 with the computation time, the packet list grows by exactly the ResultPacket built from the prior answers, k state and snapshot, and the log by exactly the ResultEvent chained to the prior log; on error nothing changes |
| CoupleService.Session.RecordResult | mbti-arcade/app/couple/services.py:350-395 | the result stored at stage 3 with the computation time; packets become the old list plus exactly ResultPacket(res) (the four answer dicts, k threshold/value/visibility, stage-1 snapshot, outputs, code ref and model id, with the SHA-256 of its canonical form); the log becomes the old log plus exactly the "result.computed" ResultEvent carrying top items, gap grade, that digest, code ref, model id and k state, chained to the old log's last hash |
| QuestionnaireLoader.ValidateRecord | mbti-arcade/app/data/questionnaire_loader.py:52-78 | a record validates exactly when its id is non-empty, its dim upper-cases to one of the four axes and its sign is -1 or 1; the validated dim is the upper-cased one |
| QuestionnaireLoader.ValidateAll | mbti-arcade/app/data/questionnaire_loader.py:81-91 | a list validates exactly when every entry does, and then holds each entry's validated record in order |
| QuestionnaireLoader.ExtractOrdinal | mbti-arcade/app/data/questionnaire_loader.py:154-162 | succeeds exactly when the last "-" segment parses as an int greater than 0, and then yields that int; a segment that does not parse gives NonNumericSuffix(code), one that parses to 0 or less gives NonPositiveOrdinal(code) |
| QuestionnaireLoader.CodeRoundTrip | mbti-arcade/app/data/questionnaire_loader.py:145-162 | reading a code built as prefix-middle-ordinal gives back its prefix and its ordinal |
| QuestionnaireLoader.IdDeterminesParts | mbti-arcade/app/data/questionnaire_loader.py:22-30 | with ordinals from 1 to 99, base + axis offset + ordinal determines the prefix, the axis and the ordinal |
| QuestionnaireLoader.Tagged | mbti-arcade/app/data/questionnaire_loader.py:187-188 | one emitted item per record, each with the given context, in order |
| QuestionnaireLoader.EmitRecords | mbti-arcade/app/data/questionnaire_loader.py:168-188 | the loop over one list of records yields what running emit over the tagged records gives |
| QuestionnaireLoader.EmitModes | mbti-arcade/app/data/questionnaire_loader.py:190-195 | the loop over the modes dict yields what running emit over every mode's tagged records gives, an unknown mode failing |
| QuestionnaireLoader.ModeItemsSnoc | mbti-arcade/app/data/questionnaire_loader.py:190-195 | handling one more mode entry continues from where the earlier entries stopped |
| QuestionnaireLoader.ModeItemsSticks | mbti-arcade/app/data/questionnaire_loader.py:190-195 | once the first entries have failed, the later ones do not change the error |
| QuestionnaireLoader.IterQuestionRecords | mbti-arcade/app/data/questionnaire_loader.py:165-195 | the generator drained into a list: the common records, then each mode's records under its context, or the first error |
| QuestionnaireLoader.RunSeeds | mbti-arcade/app/data/questionnaire_loader.py:166-185 | on success the k-th seed is the k-th record with its context and derived id, and seen_codes holds exactly the seeds' codes |
| QuestionnaireLoader.RunDistinct | mbti-arcade/app/data/questionnaire_loader.py:169-174 | on success no two seeds share a code |
| QuestionnaireLoader.DuplicateRejected | mbti-arcade/app/data/questionnaire_loader.py:169-171 | two records with the same code make the load fail |
| QuestionnaireLoader.ModeContexts | mbti-arcade/app/data/questionnaire_loader.py:190-195 | every mode record carries a context from MODE_CONTEXT_MAP, and a mode key missing from the map leaves a failing item |
| QuestionnaireLoader.UnknownModeRejected | mbti-arcade/app/data/questionnaire_loader.py:191-193 | a mode key the map does not know makes the load fail |
| QuestionnaireLoader.SeedContextsRanked | mbti-arcade/app/data/questionnaire_loader.py:31-37 | every emitted seed's context has a rank in CONTEXT_SORT_ORDER, so the sort key never fails |
| QuestionnaireLoader.BySortKeyTotal | mbti-arcade/app/data/questionnaire_loader.py:202 | the (context rank, id) key orders seeds totally |
| QuestionnaireLoader.SeedsOrdered | mbti-arcade/app/data/questionnaire_loader.py:199-203 | get_question_seeds is sorted by (context rank, id), is a permutation of the emitted seeds and never repeats a code |
| QuestionnaireLoader.QuestionSeeds | mbti-arcade/app/data/questionnaire_loader.py:199-203 | fails exactly when the records walk fails; otherwise the seeds are sorted by (context rank, id) and are a permutation of the emitted ones |
| QuestionnaireLoader.LoadSeeds | mbti-arcade/app/data/questionnaire_loader.py:139-143 | the first invalid common record's error is returned; a success means every common record and every mode validated, and the seeds are sorted by (context rank, id) |
| QuestionnaireLoader.DistinctAfterPermutation | mbti-arcade/app/data/questionnaire_loader.py:201-202 | sorting keeps the codes distinct |
| QuestionnaireLoader.SeedsByContext | mbti-arcade/app/data/questionnaire_loader.py:210-214 | an error exactly when the lower-cased context is not a known one; otherwise exactly the seeds of that context |
| QuestionnaireLoader.OfContext | mbti-arcade/app/data/questionnaire_loader.py:214 | a seed is kept exactly when it is a seed of that context |
| QuestionnaireLoader.SeedsByContextAnyCase | mbti-arcade/app/data/questionnaire_loader.py:211 | the letter case of the context argument does not change the answer |
| QuestionnaireLoader.LookupOf | mbti-arcade/app/data/questionnaire_loader.py:206-207 | the keys are exactly the seeds' ids, and each key maps to a seed carrying that id |
| QuestionnaireLoader.LoadedSeedsSigned | mbti-arcade/app/data/questionnaire_loader.py:73-78 | every loaded seed has a sign of -1 or 1 |
| MainScoring.CollectViews | mbti-arcade/app/main.py:66-82 | the loop over the payloads builds the views the specification function gives |
| MainScoring.BuildQuestions | mbti-arcade/app/main.py:63-82 | an unknown mode's error is passed on; otherwise the views of the mode's questions under the chosen perspective's prompt |
| MainScoring.ViewsFollowPayloads | mbti-arcade/app/main.py:65-81 | every view shows a non-empty prompt of one payload, every payload with such a prompt has its view, and no payload is dropped when none lacks a prompt |
| MainScoring.ViewsAscending | mbti-arcade/app/main.py:67-81 | the views keep the ascending id order of the payloads |
| MainScoring.RoundHalfEven | mbti-arcade/app/main.py:139 | round() gives an integer within a half of its argument, the even one on a tie |
| MainScoring.RoundUnique | mbti-arcade/app/main.py:139 | any integer within a half of x that is even on a tie is round(x) |
| MainScoring.Clamp | mbti-arcade/app/main.py:139 | the result lies in 0..100 and a value already in range is unchanged |
| MainScoring.LettersOf | mbti-arcade/app/main.py:134-145 | one letter per axis |
| MainScoring.AxisScores | mbti-arcade/app/main.py:131-143 | the loop over DIMENSIONS builds the letters and the scores the specification functions give |
| MainScoring.ScoreAnswers | mbti-arcade/app/main.py:123-146 | _score_answers returns the type, scores and radar of the specification function, or its error |
| MainScoring.PrimaryChosenIff | mbti-arcade/app/main.py:139-143 | the first pole's letter is chosen exactly when its score is at least 50, which holds exactly when the norm is at least -0.01 |
| MainScoring.PrimaryIsRoundedRadar | mbti-arcade/app/main.py:139 | for a norm in [-1, 1] the clamp never bites and the score is within half a point of (norm + 1) * 50 |
| MainScoring.LettersAreType | mbti-arcade/app/main.py:134-145 | one letter per axis in DIMENSIONS order, the first pole exactly when its score reaches 50, always one of the sixteen types |
| MainScoring.ScoresComplement | mbti-arcade/app/main.py:139-142 | both letters of every axis get a score in 0..100, the pair summing to 100, and no other key |
| MainScoring.ScoreFailures | mbti-arcade/app/main.py:124-128 | an empty submission is refused; a non-empty one fails exactly when compute_norms fails; a success's type is one of the sixteen |
| MainScoring.SummaryCoverage | mbti-arcade/app/main.py:98-120 | MBTI_SUMMARIES has exactly the sixteen types; only a string outside them gets the default summary |
| MainScoring.DimSignOf | mbti-arcade/app/main.py:86-89 | one (dim, sign) entry per question id of the lookup |
| MainScoring.LoadedNormsUnclamped | mbti-arcade/app/main.py:128-139 | with the loaded seeds every norm lies in [-1, 1], so the primary score is the rounded radar value |
| Audits.Counts | mbti-arcade/scripts/audit_friend_module.py:29-30 | a key is counted exactly when it occurs, and its count is its number of occurrences |
| Audits.DuplicatesIff | mbti-arcade/scripts/audit_friend_module.py:23-26 | the duplicate check fires exactly when two items share an id as `get` reads it, a missing or null id reading as None |
| Audits.PerDimCounts | mbti-arcade/scripts/audit_friend_module.py:33-38 | per_dim[dim][pole] exists exactly for the (dim, pole) pairs that occur and counts their occurrences |
| Audits.FlaggedAt | mbti-arcade/scripts/audit_friend_module.py:39-45 | the positions of exactly the flagged items, ascending |
| Audits.FlaggedIdsInOrder | mbti-arcade/scripts/audit_friend_module.py:35-45 | the j-th listed id is `item["id"]` of the j-th flagged item, so every flagged item is listed once, in input order, and nothing else |
| Audits.ReverseCount | mbti-arcade/scripts/audit_friend_module.py:31 | the reverse-keyed count never exceeds the item count |
| Audits.FriendScan | mbti-arcade/scripts/audit_friend_module.py:33-45 | the classification loop raises KeyError exactly when some flagged item has no id key; otherwise it builds the per-axis counts and the three flagged lists the specification functions give |
| Audits.FriendAudit | mbti-arcade/scripts/audit_friend_module.py:22-66 | repeated ids (None included) end the audit naming them; otherwise a flagged item without an id raises KeyError; every other list, the empty one included, gets the full report |
| Audits.EmptyListFinding | mbti-arcade/scripts/audit_friend_module.py:49 | for the empty list the script as written divides by zero, while the guarded report has the count warning and no ratio warning or share |
| Audits.TwoWithoutId | mbti-arcade/scripts/audit_friend_module.py:23-26 | two items whose id is missing or null make None a duplicate, so the run stops before classification |
| Audits.FriendReadingsAgree | mbti-arcade/scripts/audit_friend_module.py:49 | for every non-empty list the script as written gives the duplicate error, the KeyError or the report exactly as the guarded audit does |
| Audits.CountPerDim | mbti-arcade/scripts/audit_work_module.py:48-50 | the per_dim_pole loop builds the per-axis counts the specification function gives |
| Audits.WorkAudit | mbti-arcade/scripts/audit_work_module.py:32-74 | repeated ids (None included) end the audit naming them, a flagged item without an id raises KeyError, the empty list divides by zero, any other list gets the full report |
| Audits.FlagsIff | mbti-arcade/scripts/audit_work_module.py:44-46 | an item is flagged for its axis, its sign or its reverse flag exactly when the matching test fails for it |
| Audits.UnknownPole | mbti-arcade/scripts/audit_friend_module.py:8-9 | a missing or unknown pole always fails the axis test, fails the sign test exactly when the item has a sign, and the reverse test exactly when it is reverse-keyed |
| Audits.WellFormedPasses | mbti-arcade/scripts/audit_friend_module.py:39-45 | an item keyed to a pole of its axis, with that pole's sign and reverse-keyed exactly for I, N, F and P, passes all three tests, so it never raises KeyError even without an id |
| Audits.NoneFlagged | mbti-arcade/scripts/audit_work_module.py:61-69 | a flagged list is empty exactly when no item carries that flag |
| Audits.PassedIff | mbti-arcade/scripts/audit_work_module.py:61-69 | the all-clear line appears exactly when no item fails any of the three tests |
| Audits.WarningsIff | mbti-arcade/scripts/audit_friend_module.py:63-66 | the count warning appears exactly outside 40..56 items, the ratio warning exactly when under 40% of a non-empty list is reverse-keyed |
| OgImage.Bytes | mbti-arcade/app/og/image.py:38 | a colour is four bytes |
| OgImage.AdvanceAppend | mbti-arcade/app/og/image.py:52-60 | drawing two texts one after the other moves the cursor as far as drawing their concatenation |
| OgImage.MonospacedAdvance | mbti-arcade/app/og/image.py:55-60 | with glyphs five cells wide every character moves the cursor by (5 + spacing) times the scale |
| OgImage.Canvas.Row | mbti-arcade/app/og/image.py:27-31 | every row holds four bytes per pixel |
| OgImage.Canvas.Rows | mbti-arcade/app/og/image.py:27-31 | one row per line of the canvas, each the canvas's own row |
| OgImage.Canvas.Filled | mbti-arcade/app/og/image.py:12-31 | a canvas of the given size whose every row is the background colour repeated width times |
| OgImage.Canvas.FromRows | mbti-arcade/app/og/image.py:12-27 | a canvas of the given size holding fresh copies of the given rows |
| OgImage.Canvas.Create | mbti-arcade/app/og/image.py:12-31 | fails exactly for non-positive dimensions, a row template of the wrong height, or neither rows nor a background, with the matching error; otherwise a fresh canvas of that size holding the template rows or the background colour |
| OgImage.Canvas.SetPixel | mbti-arcade/app/og/image.py:33-38 | off the canvas nothing changes; on it exactly the four bytes of that pixel become the colour |
| OgImage.Canvas.FillRect | mbti-arcade/app/og/image.py:40-49 | exactly the pixels of the rectangle that lie on the canvas become the colour, all others keep their bytes |
| OgImage.Canvas.DrawGlyph | mbti-arcade/app/og/image.py:62-69 | every pixel ends either as it was or in the colour |
| OgImage.Canvas.DrawText | mbti-arcade/app/og/image.py:51-60 | the cursor ends at x plus the advance of the upper-cased text, and every pixel ends either as it was or in the colour |
| OgImage.Canvas.Clone | mbti-arcade/app/og/image.py:89-90 | a new canvas with its own buffer, the same size and the same bytes |
| OgImage.Repeat | mbti-arcade/app/og/image.py:31 | bytes(bg) * width has width times four bytes |
| OgImage.RepeatAt | mbti-arcade/app/og/image.py:31 | byte i of the repeated colour is byte i mod 4 of the colour |
| OgImage.Be32 | mbti-arcade/app/og/image.py:77 | to_bytes(4, "big") gives four bytes |
| OgImage.Be32RoundTrip | mbti-arcade/app/og/image.py:77-84 | a 32-bit number reads back from its big-endian bytes |
| OgImage.FromBe32RoundTrip | mbti-arcade/app/og/image.py:77-84 | every four bytes are the big-endian encoding of the number they read as |
| OgImage.Chunk | mbti-arcade/app/og/image.py:76-79 | a chunk is twelve bytes longer than its data |
| OgImage.ChunkRoundTrip | mbti-arcade/app/og/image.py:76-79 | a chunk followed by anything parses back to its type, its data and what follows, the CRC checking |
| OgImage.ScanlinesRoundTrip | mbti-arcade/app/og/image.py:72 | the filter-prefixed scanline stream of equally long rows splits back into those rows |
| OgImage.PngHeader | mbti-arcade/app/og/image.py:71-87 | the PNG exists exactly when width, height and compressed length fit 32 bits; it starts with the signature and an IHDR chunk whose fields read back as width and height |
| OgImage.PngChunks | mbti-arcade/app/og/image.py:81-87 | after the signature the stream parses as exactly the IHDR, IDAT and IEND chunks carrying the header, the compressed scanlines and nothing |
| ProblemBank.ToDictKeys | calculate-service/app/problem_bank.py:32-42 | id, category and question are always present; the answer exactly when requested and the hint exactly when set, each with its value |
| ProblemBank.BuildProblemErrors | calculate-service/app/problem_bank.py:139-158 | not-an-object exactly for a non-object; missing-category exactly when neither the argument nor the entry gives a truthy category; a built problem had a question and an answer that int() accepts, and carries that integer |
| ProblemBank.CategoryArgumentWins | calculate-service/app/problem_bank.py:142 | a non-empty category argument wins over the entry's own category |
| ProblemBank.DefaultId | calculate-service/app/problem_bank.py:161 | without a truthy id of its own an entry gets "<category>-<index>" |
| ProblemBank.ToDictReloads | calculate-service/app/problem_bank.py:32-42 | a problem written out with its answer builds back into itself, given a non-empty category and id |
| ProblemBank.BuildProblemFrom | calculate-service/app/problem_bank.py:160-169 | once the category, question and an int-convertible answer are known, the problem carries the derived id, the stringified fields, the integer answer and the hint |
| ProblemBank.BuildProblem | calculate-service/app/problem_bank.py:136-169 | a problem is built only from an object giving both a question and an answer; its answer is the int() of the given answer and its question the str() of the given question |
| ProblemBank.BuildAll | calculate-service/app/problem_bank.py:127-132 | the run succeeds exactly when every entry builds, and then the k-th problem is the k-th entry built with its 1-based index |
| ProblemBank.FirstFailing | calculate-service/app/problem_bank.py:127-132 | the first entry that fails to build, every entry before it building |
| ProblemBank.BuildAllFirstError | calculate-service/app/problem_bank.py:127-132 | a failed run reports the error of its first failing entry |
| ProblemBank.CoerceDictShape | calculate-service/app/problem_bank.py:121-128 | a dict source loads only when every value is a list; it then yields one problem per entry, each under one of the keys when no key is empty |
| ProblemBank.CoerceDictCount | calculate-service/app/problem_bank.py:121-128 | a dict source loads only when every value is a list, and then yields exactly as many problems as the lists hold entries |
| ProblemBank.CoerceDictCategories | calculate-service/app/problem_bank.py:121-128 | with no empty key, every problem of a dict source carries one of the keys as its category |
| ProblemBank.BuiltUnderKey | calculate-service/app/problem_bank.py:127-128 | every problem built from a dict entry list carries the list's non-empty key as its category |
| ProblemBank.Coerce | calculate-service/app/problem_bank.py:120-134 | anything but a dict or a list is the unsupported-structure error; a list loads exactly when every entry builds, one problem per entry; a dict yields one problem per list entry |
| ProblemBank.ListSourceIndexes | calculate-service/app/problem_bank.py:129-132 | a list source yields the k-th problem from the k-th entry with index k + 1 and the entry's own category |
| ProblemBank.IndexByIdLast | calculate-service/app/problem_bank.py:83-86 | an id is indexed exactly when some problem has it, and it maps to the last such problem |
| ProblemBank.BuildIndexes | calculate-service/app/problem_bank.py:82-86 | the loop builds the category cache as the grouping of the problems by category in load order, and the id index |
| ProblemBank.GroupedTotal | calculate-service/app/problem_bank.py:116-118 | the cache's lists together hold exactly as many problems as were loaded |
| ProblemBank.GroupedFirst | calculate-service/app/problem_bank.py:106 | the cache's first category is the first problem's |
| ProblemBank.ProblemsForLoaded | calculate-service/app/problem_bank.py:100-107 | a known category gets exactly its problems in load order, an unknown one the first problem's category's problems |
| ProblemBank.RefreshStepRules | calculate-service/app/problem_bank.py:55-80 | a skip happens exactly for an unforced refresh of a source no newer than the last load; a load brings at least one problem from a present, newer or forced source; an empty source is refused |
| ProblemBank.ProblemRepository.constructor | calculate-service/app/problem_bank.py:48-53 | an empty cache and index and no load time |
| ProblemBank.ProblemRepository.Refresh | calculate-service/app/problem_bank.py:55-90 | on a load both dicts are rebuilt from the new problems and the load time is the source's; on an error or a skip nothing changes |
| ProblemBank.ProblemRepository.Install | calculate-service/app/problem_bank.py:82-90 | a non-empty load leaves the repository valid: the cache is the problems grouped by category in load order, the id index maps each id to its last problem, and the load time is recorded |
| ProblemBank.ProblemRepository.EnsureLoaded | calculate-service/app/problem_bank.py:92-94 | a filled cache is left alone and raises nothing; otherwise the error is exactly that of the unforced refresh (EnsureError), after a successful one some problem is loaded, and after an error nothing changed |
| ProblemBank.ProblemRepository.GetProblems | calculate-service/app/problem_bank.py:100-107 | fails exactly when _ensure_loaded fails, with its error; otherwise the category's problems in load order, or the first category's for an unknown one |
| ProblemBank.ProblemRepository.GetProblem | calculate-service/app/problem_bank.py:109-114 | succeeds exactly when loading succeeds and some loaded problem has the id, giving the last such one; otherwise the loading error, or the not-found error for the id |
| ProblemBank.ProblemRepository.Length | calculate-service/app/problem_bank.py:116-118 | fails exactly when _ensure_loaded fails, with its error; otherwise the number of loaded problems, at least one |
| ProblemBank.ProblemRepository.ListCategories | calculate-service/app/problem_bank.py:96-98 | fails exactly when _ensure_loaded fails, with its error; otherwise exactly the loaded problems' categories |
| CategoryService.StripBlank | calculate-service/app/category_service.py:39 | strip() leaves an empty string exactly for an all-whitespace string |
| CategoryService.Normalized | calculate-service/app/category_service.py:39 | the filter keeps at most as many entries as it is given, each a non-blank string |
| CategoryService.NormalizedMembers | calculate-service/app/category_service.py:39 | a string is kept exactly when it is one of the items and not blank; nothing is kept exactly when no item is a non-blank string |
| CategoryService.AllowedCategoriesPrecedence | calculate-service/app/category_service.py:34-42 | configured non-blank labels, unstripped, win over the bank; with none configured the bank's categories are used as they are |
| CategoryService.AllowedCategories | calculate-service/app/category_service.py:34-42 | with nothing configured the bank's categories; otherwise either the bank's or a non-empty list of labels, none of them blank |
| CategoryService.FirstLabel | calculate-service/app/category_service.py:50-52 | the first non-blank string, every item before it being none |
| CategoryService.PrimaryCategory | calculate-service/app/category_service.py:50-53 | a label exactly when some item is a non-blank string, and then a non-blank item as given |
| CategoryService.AsItems | calculate-service/app/category_service.py:48-49 | the allowed categories as items, one per category and in order |
| CategoryService.PrimaryIsFirstConfigured | calculate-service/app/category_service.py:45-53 | without an argument and with labels configured, the primary category is the first configured label |
| CategoryService.ResolvePrimaryCategory | calculate-service/app/category_service.py:45-53 | with an argument, a category exactly when some item is a label, and then one of the items; any category returned is not blank |
| CategoryService.NormalizedAppend | calculate-service/app/category_service.py:39 | filtering a concatenation concatenates the filters |
| CategoryService.NormalizedFirst | calculate-service/app/category_service.py:39-41 | the filter's first entry is the first label |
| CategoryService.Labels | calculate-service/app/category_service.py:61-64 | every shown name is non-empty |
| CategoryService.LabelsAreStrippedNormalized | calculate-service/app/category_service.py:61-64 | the shown names are exactly the allowed labels, stripped, in order |
| CategoryService.CardsFor | calculate-service/app/category_service.py:59-78 | one card per shown name |
| CategoryService.BuildCategoryCards | calculate-service/app/category_service.py:56-78 | the loop builds one card per label in input order, the accent cycle advancing only on an emitted card |
| CategoryService.AddCard | calculate-service/app/category_service.py:61-77 | a blank or non-string item adds nothing; a label adds its card with the next accent, which stays the card count mod 4 |
| CategoryService.CardsOfLabels | calculate-service/app/category_service.py:56-78 | as many cards as labels, the k-th titled with the k-th label stripped and drawn with accent k mod 4 |
| CategoryService.CardFields | calculate-service/app/category_service.py:12-31 | every card links to its category and names it in its call to action; without an entry in the maps it gets the book icon and a generated description; cards four apart share the accent |
| InviteService.Accuracy | calculate-service/app/invite_service.py:17-22 | accuracy lies in 0..100 and is 0 without questions |
| InviteService.AccuracyNearest | calculate-service/app/invite_service.py:21-22 | with questions and no more correct answers than questions, accuracy is within half a question's share of 100·correct/total |
| InviteService.AccuracyExact | calculate-service/app/invite_service.py:21-22 | a whole percentage in 0..100 is reported exactly |
| InviteService.SummaryExamples | calculate-service/app/invite_service.py:24-27 | the dict holds total, correct and accuracy; 8 of 10 is 80 and 5 of 5 is 100 |
| InviteService.ExpiredStaysExpired | calculate-service/app/invite_service.py:38-40 | the expiry instant itself counts as expired, and an expired session stays expired later |
| InviteService.SessionToDictSummary | calculate-service/app/invite_service.py:42-51 | the payload carries the token, and a summary exactly when the session has one, as the summary's own dict |
| InviteService.Unexpired | calculate-service/app/invite_service.py:100 | the kept sessions are stored ones, unchanged, none expired at that instant |
| InviteService.UnexpiredKeepsLive | calculate-service/app/invite_service.py:100-102 | purging keeps every session that has not expired |
| InviteService.UnexpiredLater | calculate-service/app/invite_service.py:97-102 | purging and then purging later is purging later; purging twice at once changes nothing more |
| InviteService.InviteStore.constructor | calculate-service/app/invite_service.py:57-60 | the ttl is raised to one minute and the token size to eight bytes at least, with an empty store |
| InviteService.InviteStore.Create | calculate-service/app/invite_service.py:63-80 | a session for the drawn token, created now and expiring ttl minutes later, stored under its token and not yet expired |
| InviteService.InviteStore.Get | calculate-service/app/invite_service.py:82-91 | None for an unknown token; an expired session is dropped and None returned; otherwise the stored session with nothing changed |
| InviteService.InviteStore.Expire | calculate-service/app/invite_service.py:93-95 | the token is removed and what was stored under it returned |
| InviteService.InviteStore.PurgeExpired | calculate-service/app/invite_service.py:97-102 | exactly the sessions not expired at that instant remain |
| SyncClient.LastValueSpec | testing_utils/sync_client.py:27-28 | a lowered key has a value exactly when some sent key lowers to it, and the value is that of the last such pair |
| SyncClient.LookupOfLast | testing_utils/sync_client.py:26-28 | the lookup dict holds exactly the last value of every lowered key |
| SyncClient.LowerDict | testing_utils/sync_client.py:17-18 | the lowered mapping has distinct keys |
| SyncClient.LowerDictGet | testing_utils/sync_client.py:17-18 | looking up the lowered mapping agrees with the case-insensitive lookup of the last value |
| SyncClient.Headers.constructor | testing_utils/sync_client.py:24-28 | the pairs are kept in order and the lookup holds the last value of every lowered key |
| SyncClient.Headers.GetItem | testing_utils/sync_client.py:30-34 | the last value sent under any casing of the key, or KeyError exactly when no sent key lowers to it |
| SyncClient.Headers.Get | testing_utils/sync_client.py:42-43 | the last value sent under any casing of the key, or the default |
| SyncClient.Headers.Keys | testing_utils/sync_client.py:36-37 | every key as sent, duplicates included, in order |
| SyncClient.Headers.Length | testing_utils/sync_client.py:39-40 | the number of pairs sent, duplicates included |
| SyncClient.Headers.Items | testing_utils/sync_client.py:45-46 | the pairs exactly as sent, keys in the order Keys gives |
| SyncClient.EncodeData | testing_utils/sync_client.py:88-104 | a TypeError exactly for an unsupported value; a content-type header exactly for a mapping, which is form-encoded |
| SyncClient.PrepareBodyPrecedence | testing_utils/sync_client.py:107-122 | JSON wins over content, content over data; the headers name at most the content type, JSON exactly for a JSON body and a form exactly for a data mapping; a TypeError only when nothing before the data applies |
| SyncClient.PrepareBody | testing_utils/sync_client.py:107-122 | a TypeError arises exactly when there is no JSON body, no content and unsupported data; raw content without JSON is sent as is with no body headers |
| SyncClient.SetDefaults | testing_utils/sync_client.py:240-241 | setdefault keeps the header keys distinct |
| SyncClient.WithLength | testing_utils/sync_client.py:242-243 | a content-length equal to the body's length is added exactly when the body is non-empty and none is present |
| SyncClient.SetDefaultsKeeps | testing_utils/sync_client.py:240-241 | setdefault never overrides a caller header, and adds a body header exactly when its key is new |
| SyncClient.MergeBodyHeaders | testing_utils/sync_client.py:239-243 | the loop merges the body headers by setdefault and then adds the content length |
| SyncClient.MergedHeaders | testing_utils/sync_client.py:239-243 | caller headers survive unchanged, and a content-length is present afterwards exactly when one was given or the body is non-empty |
| SyncClient.PerformRedirects | testing_utils/sync_client.py:245-273 | the loop gives what following the redirects gives, calling the application at most max_redirects + 1 times, once more than the history's length on success |
| SyncClient.FollowHistory | testing_utils/sync_client.py:248-271 | every response in the history is a followed redirect with a location, the history is shorter than the calls allowed, and the final response is one the loop stops at |
| SyncClient.NoFollow | testing_utils/sync_client.py:259-262 | without following, the application is called once and its answer returned at the request URL with no history |
| SyncClient.ErrOnlyWhenFollowing | testing_utils/sync_client.py:259-273 | the too-many-redirects error arises only when following redirects |

## Left out

**Floating point**
- Python floats are exact reals. A value that rounds differently in binary floating point can differ from the model; this matters mostly at rounding ties.
- `round(x, n)` to a number of places is not modelled; every such value is kept unrounded. This covers:
  - services/scoring.py:48, `round(…, 3)` in `norm_to_radar` (Scoring.NormToRadar);
  - services/aggregator.py:216, 263, 266, 270 and 274, `round(…, 6)` in the aggregates;
  - database.py:79, `round(value / count, 1)` (FriendDatabase.AveragesOf keeps the exact quotient);
  - core_scoring/__init__.py:294, `round(value, 3)` on scale scores;
  - core_scoring/__init__.py:333 and 335, `round(…, 4)` on the mean and top delta;
  - routers/health.py:42, `round(uptime, 3)`;
  - routers/participants.py:210, `round(value, 6)` on the stored axes payload.
- Rounding to a whole number (`round(x)` in main.py and invite_service.py) is modelled, as half to even.
- The square root in `weighted_sigma` is left out; the model states its square, the weighted variance.
- `fmean` is the exact mean.
- `_parse_float` in observability.py is not part of this model.

**Text and JSON**
- String case mapping, `strip()` and `split()` are ASCII-only. There is no Unicode case folding or Unicode whitespace.
- JSON numbers with a fraction or an exponent are not modelled.
- `repr()` of a string does not escape quotes inside it.
- Flag reason texts and insight card texts are not modelled.
- Text.ParseInt: accepts surrounding whitespace, an optional sign and ASCII digits only. Python's `int()` also accepts PEP 515 underscores between digits (`int("1_0") == 10`), and the model rejects those strings. This reaches MbtiRouter.ScoreForm, MbtiScript.AccumulateRaw, ProblemBank.BuildProblem (through AsInt) and QuestionnaireLoader.ExtractOrdinal.
- The `max_length=4` Field constraint on `mbti_value` (schemas.py:242) is not modelled. Pydantic enforces it when the request is parsed, before any handler runs.
- MbtiRouter.ScoreForm: the form is a sequence of (key, value) pairs. Starlette's multi-valued form, where a repeated key keeps all its values and lookup returns the last one, is not modelled separately.

**Outside inputs and services** (each is a parameter; its algorithm is not modelled)
- The clock (`datetime.now`, `isoformat`).
- Random tokens (`token_urlsafe`, `uuid`).
- SHA-256.
- zlib compression and CRC-32.
- `json.dumps` and `urlencode`.
- `urljoin` and `urlparse`.
- Environment variables.
- HTTPStatus phrases.
- The ASGI application.

**Persistence, threads and framework**
- Database sessions and ORM rows become class fields and maps; SQL queries are not modelled.
- `save_to_file` and `load_from_file` of database.py are left out: the store lives in memory only.
- Threading locks are left out; every operation runs alone.
- Module-level singletons (`get_repository`, `refresh_cache`, `reset_cache`, `invite_store`) are left out.
- Async wrappers, FastAPI routing, template rendering and exception handlers are left out.
- The network probes of health.py are left out.

**Randomness**
- `random.shuffle` in routers/mbti.py is left out.
- `get_random_problem` draws with `random.choice`, so it is left out.

**Test client**
- `_build_scope`, `_call_app`, the lifespan start-up and shutdown, `SyncASGIClient` and `create_client` are ASGI plumbing and are left out.
- The query-string assembly of `_perform_request` goes through `urlparse`/`urlencode` and is left out.

**Per-member limits**
- SyncClient.PerformRedirects: `max_redirects` is a natural number. A negative value, which makes the source raise before calling the application, is not modelled.
- OgImage.Canvas.Create: template rows must hold 4 * width bytes each. The source never checks this, and its callers always build rows that way. With a row of another length, the source's slice writes in `set_pixel` would change the row's length; the model's fixed-size `array3` cannot represent that.
- OgImage.Canvas.DrawGlyph: its contract is weaker than the source's loop. It states that every pixel ends either unchanged or in the colour, not which scaled cells of the glyph are inked.
- OgImage.Canvas.DrawText: like DrawGlyph, it does not say which pixels the glyphs ink, only the cursor advance and that no other colour appears.
- Audits.WorkAudit: a missing `dim` or `keyed_pole` key reads as None. The work script's `per_dim_pole` loop indexes them with `[]` and would raise KeyError.
- Questions.ModeSeedsSpec: candidate seeds are taken in seed order. The source iterates a set of contexts, so equal ids across contexts may come out in another order.
- CoupleService.ChainPinsBodies: it assumes that no two compared digests collide; SHA-256 itself is a parameter.
- CoupleService.Session.UpsertResponses: the requested stage is 2 or 3, the bound the request schema enforces before the service runs.
- InviteService.InviteStore.Create: times are whole seconds and the ttl is a whole number of minutes; timezone handling is left out.

**Data files**
- The 48 couple question codes and the questionnaire content are data. The loader is modelled over any parsed questionnaire.
- The 5x7 font table is a parameter of the canvas.

## Findings

| source | as written | input that shows it | evidently intended | confidence | as-written member | corrected member |
|---|---|---|---|---|---|---|
| mbti-arcade/scripts/audit_friend_module.py:49 | the reverse-keyed share is printed as `reverse_count/total` before any check that the list is non-empty | an empty item list: the audit stops with ZeroDivisionError | the ratio warning at line 65 is guarded by `if total`, so an empty list should be reported with the count warning and no share | not executed | Audits.EmptyListFinding | Audits.FriendAudit |
