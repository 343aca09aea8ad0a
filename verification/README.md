# OpenAlex natural-language query translator and taggers: a Dafny model

This project models the core of the OpenAlex "natural language to OQL"
service and of its title-and-abstract taggers.

- **Translation** (`oql_new.py`). A prompt of at most 1000 characters goes
  to a language model, which says which parts of a query are needed. Simple
  cases are answered directly. Otherwise a compose loop runs: the model
  chooses entity-lookup tools, the OpenAlex search endpoint resolves names
  to ids, the model composes an OQL object and an external validator judges
  it. The loop makes at most five attempts, each ending with a feedback
  message. A passing object is normalised (sentinels cleared, operators
  spelled out, a value containing `works/W` cut to the text after it — for a
  work URL, the id without its leading `W` — and a root branch synthesised), pruned
  to the requested parts and validated once more.
- **Local checks** (`oql_new.py`). The translator's own structural checks
  against the entity catalog, and the catalog builder over the configuration
  document.
- **Input check** (`validate.py`). The title/abstract length rules.
- **Taggers** (`concepts.py`, `topics.py`, `keywords.py`). The concept
  tagger's score post-processing (zip, stable sort by score, keep positive
  scores) and the three joins. Each join walks the predictions in order,
  writes each score into the first OpenAlex record with the matching id,
  and collects those records.

The language model, the search endpoint, the OQL validator and
`format_score` are parameters: function-typed values the model never looks
inside. Methods carry the source's loops and in-place updates. Each is
proved equal to a specification function, and the properties are lemmas
about those functions.

Modules, one per file: `Wrappers`, `Strings` (Python string operations),
`Sublists` (order-preserving filters), `OqlTypes`, `SchemaCatalog`,
`LocalValidator`, `OperatorWords`, `OutputNormalizer`, `EntityResolver`,
`QueryPipeline`, `InputValidation`, `PredictionJoin`, `ConceptScores`.

Notes on what the code does:
- `>=` and `<=` become "is greater than or equal to" and "is less than or
  equal to", and the value is left alone.
- An operator that is already a word (such as `is`) is kept.
- `check_filters` returns during its first iteration, so only the first
  filter is judged.
- `check_sort_by` and `check_return_columns` look up the target entity
  before anything else. They raise `KeyError` when it is missing, even
  without a sort object or column list.

## Model

| member | source | states |
|---|---|---|
| QueryPipeline.CheckPromptForSafety | oql_new.py:236-240 | a prompt passes exactly when it has at most 1000 characters |
| QueryPipeline.GateComesFirst | oql_new.py:21-34 | a prompt over 1000 characters gets the fixed 400 refusal, whatever the model, the search endpoint and the validator would do (the catalog configuration is still read before the gate) |
| QueryPipeline.RouteOf | oql_new.py:51-159 | the four flags select exactly one of five paths: compose iff filters or aggregation filters are needed; otherwise the empty, return-columns, sort or sort-and-return path by the two remaining flags |
| QueryPipeline.TrivialPath | oql_new.py:51-70 | with no flag set, an empty target answers `{}` unvalidated; otherwise `{"summarize_by": target}` is validated once and returned or refused with the validator's message |
| QueryPipeline.ShortCircuitSkipsComposer | oql_new.py:72-153 | the four short-circuit paths do not depend on the tool-choosing model, the composing model or the search endpoint |
| QueryPipeline.Validated | oql_new.py:59-70 | a candidate is answered as-is when the validator accepts it, else refused with status 400 and the validator's message |
| QueryPipeline.AttemptMessages | oql_new.py:178-196 | an attempt appends four messages when tools were called, two otherwise; the last two are the composed object and the feedback text with the validator's message |
| QueryPipeline.ToolRounds | oql_new.py:178-184 | the attempts that called tools number at most the attempts |
| QueryPipeline.GrowthCount | oql_new.py:178-196 | the transcript grows by two messages per attempt plus two per attempt with tool calls |
| QueryPipeline.Step | oql_new.py:173-196 | an attempt's tool calls are the model's choice on the current transcript |
| QueryPipeline.RunExtends | oql_new.py:164-198 | the loop only appends: earlier attempts and messages are kept as a prefix, and there are never more than five attempts |
| QueryPipeline.RunOutcome | oql_new.py:164-198 | starting from none, the loop makes at least one attempt; every attempt but the last failed; if the last failed too there are exactly five |
| QueryPipeline.RunMessages | oql_new.py:164-198 | the final transcript length is the start length plus the growth of the new attempts |
| QueryPipeline.RunStep | oql_new.py:168-198 | making the next attempt while the loop still runs leaves its final result unchanged, and whether the attempts passed is decided by that attempt's verdict |
| QueryPipeline.MakeAttempt | oql_new.py:173-196 | one pass of the loop body appends exactly that attempt's messages to the transcript, and its `ok` is the validator's verdict on the composed object |
| QueryPipeline.ComposeWithRetry | oql_new.py:164-198 | the `while not ok` loop computes the specified run from the examples plus the prompt, and `ok` is the last verdict |
| QueryPipeline.ComposedFailure | oql_new.py:164-207 | the compose path makes one to five attempts, stops at the first pass, and after five failures refuses with the fixed message quoting the last validator error |
| QueryPipeline.Prune | oql_new.py:211-216 | sort order and return columns are present exactly when their flags are set; the target exactly when non-empty; the filters always |
| QueryPipeline.ConcludeOutcome | oql_new.py:208-228 | an answer is the last, passing object normalised and pruned and accepted by the final validation ("works" becoming "all"); a final rejection quotes the validator |
| QueryPipeline.Finish | oql_new.py:200-228 | computes the specified conclusion of the loop |
| QueryPipeline.ComposeAndFinish | oql_new.py:155-228 | computes the specified response of the compose path |
| QueryPipeline.GetOpenaiResponse | oql_new.py:15-228 | computes the specified response: gate, prompt parsing, dispatch, compose loop, normalisation, pruning and final validation |
| OutputNormalizer.Desentinel | oql_new.py:321-326 | an empty-string value becomes null and an empty column id becomes None; nothing else changes |
| OutputNormalizer.NormalizeSummarizeBy | oql_new.py:328-331 | "" becomes None, "works" becomes "all", anything else is kept |
| OutputNormalizer.StripWorkPrefix | oql_new.py:345-348 | a string value containing "works/W" becomes `split("works/W")[1]` (the text between the first and any second occurrence) and no longer contains it; any other string and every non-string value is unchanged |
| OutputNormalizer.WorkUrlMentionsWorks | oql_new.py:346-347 | the outer "works" test never hides a "works/W" value |
| OutputNormalizer.LeafNormalisationIdempotent | oql_new.py:343-348 | normalising a leaf's operator and value twice equals normalising once |
| OutputNormalizer.Convert | oql_new.py:336-349 | a branch keeps its id, operator and children and takes "works" when relabelled; a leaf keeps its id and subject, its column id is the input's with "" cleared, its operator is the input's with the four symbols spelled out, and its value is the input's with "" cleared and the work prefix stripped |
| OutputNormalizer.WorksIds | oql_new.py:359 | the root's children are the ids of the nodes whose subject is "works", in the nodes' order and one per node |
| OutputNormalizer.ConvertedFollowsKept | oql_new.py:335-349 | the output follows the input's branches and leaves one for one and in order; objects of any other type are dropped |
| OutputNormalizer.OnlyFirstBranchRelabelled | oql_new.py:336-340 | a branch takes "works" exactly when the target is empty and no branch precedes it |
| OutputNormalizer.RootSynthesised | oql_new.py:351-363 | when leaves but no branch were kept, a "branch_work"/"works"/"and" root over the "works" leaves is prepended; otherwise nothing is |
| OutputNormalizer.FinalHasBranch | oql_new.py:351-365 | a non-empty filter list always holds a branch |
| OutputNormalizer.LeavesNormalised | oql_new.py:342-349 | every leaf of the result is normalised |
| OutputNormalizer.ReshapeFilters | oql_new.py:333-349 | the reshaping loop yields the specified nodes, and its branch counter is zero exactly when no branch was kept |
| OutputNormalizer.FixOutputForFinal | oql_new.py:320-366 | computes the specified normalised object; sort order and return columns pass through unchanged |
| OperatorWords.RowGreater | oql_new.py:343-344 | ">" becomes "is greater than" |
| OperatorWords.RowLess | oql_new.py:343-344 | "<" becomes "is less than" |
| OperatorWords.RowGreaterOrEqual | oql_new.py:343-344 | ">=" becomes "is greater than or equal to" |
| OperatorWords.RowLessOrEqual | oql_new.py:343-344 | "<=" becomes "is less than or equal to" |
| OperatorWords.RewriteOperatorResult | oql_new.py:343-344 | any other operator is unchanged, and no result is a symbolic comparison |
| Strings.ReplaceAbsent | oql_new.py:344 | `replace` leaves a string without the pattern's first character unchanged |
| Strings.ReplaceWhole | oql_new.py:344 | a string equal to the pattern becomes the replacement |
| Strings.IndexOf | oql_new.py:346-347 | finds the first occurrence of a substring, or reports that there is none |
| Strings.SplitSecond | oql_new.py:348 | `split(sep)[1]`: the text after the first occurrence of the separator, up to the next occurrence or to the end, with no occurrence inside it |
| Strings.LastSegment | oql_new.py:378 | `split("/")[-1]` is the slash-free suffix after the last slash |
| Strings.LastSegmentOfPath | oql_new.py:378 | the last segment of "prefix/x" is `x` |
| Strings.Lower | oql_new.py:412 | each ASCII upper-case letter becomes its lower-case letter and every other character is kept, position by position |
| EntityResolver.EntityId | oql_new.py:368-485 | "<kind> not found" unless status is 200 and the count is positive; otherwise exactly the last URL segment of the first result, passed through `lower` except for institutions and authors |
| EntityResolver.EntityIdOfUrl | oql_new.py:374-380 | a result URL ending in "/x" yields `x` (or its lowercase) |
| EntityResolver.ToolKind | oql_new.py:494-548 | a recognised tool name is `get_<kind>_id` for the kind it returns |
| EntityResolver.ToolKindComplete | oql_new.py:494-548 | every kind's tool name is dispatched to that kind |
| EntityResolver.Bind | oql_new.py:494-548 | a binding records the raw name under `raw_<argument>` and one path per column key of the kind, all equal |
| EntityResolver.BindPaths | oql_new.py:494-548 | each path is "<kinds>/" + the resolved id; institutions and authors carry two columns, the others one |
| EntityResolver.NotFoundPath | oql_new.py:380-383 | a failed lookup writes "<kinds>/<kind> not found" |
| EntityResolver.UseOpenaiOutputToGetIds | oql_new.py:487-549 | the loop builds one binding per recognised call, in call order |
| EntityResolver.BindingsCount | oql_new.py:490-549 | at most one binding per call, exactly one each when all names are recognised |
| EntityResolver.UnknownCallSkipped | oql_new.py:494-548 | a call with an unknown name adds nothing |
| EntityResolver.BindingsInCallOrder | oql_new.py:491-549 | binding i comes from the i-th recognised call, and those calls are an ordered sub-list of the calls |
| SchemaCatalog.SortableIdsSublist | oql_new.py:1115-1116 | the sortable columns are the ordered sub-list of columns whose actions contain "sort" |
| SchemaCatalog.SortableAreFilterable | oql_new.py:1113-1120 | every sortable column is filterable |
| SchemaCatalog.BuildEntityInfo | oql_new.py:1101-1143 | the per-entity loop computes the specified record |
| SchemaCatalog.GetAllEntitiesAndColumns | oql_new.py:1091-1146 | the catalog holds exactly the known kinds present in the configuration (a JSON object, so its keys are distinct), each described by its own entry |
| SchemaCatalog.FunctionCallFlag | oql_new.py:1101-1126 | only the seven tool-resolved kinds are function-call entities, they carry no values, and their filter and return columns coincide |
| LocalValidator.Target | oql_new.py:1176-1179 | the checked entity is the target when truthy, else "works" |
| LocalValidator.CheckFilters | oql_new.py:1148-1160 | the verdict is the first filter's: known subject and a filterable or empty column id; an empty list passes |
| LocalValidator.CheckFiltersIgnoresTail | oql_new.py:1149-1159 | filters after the first never change the verdict |
| LocalValidator.RootBranchHidesLeaves | oql_new.py:1153-1155 | a first filter with an empty column on a known entity lets any later filters through |
| LocalValidator.CheckSummarizeBy | oql_new.py:1162-1173 | passes exactly when the target is empty, a catalog key, or "all" |
| LocalValidator.CheckSortBy | oql_new.py:1175-1190 | `KeyError` exactly when the target entity is missing; otherwise passes iff there is no sort or its column is sortable and its direction is asc or desc |
| LocalValidator.CheckReturnColumns | oql_new.py:1192-1204 | `KeyError` exactly when the target entity is missing; otherwise passes iff every column is returnable |
| LocalValidator.PostProcessOpenaiOutput | oql_new.py:1206-1223 | passes exactly when all four keys are present and all four checks pass; a `KeyError` only after the first two passed |
| LocalValidator.SummarizeByAllRaises | oql_new.py:1162-1190 | the target "all" passes its own check but raises `KeyError("all")` in the sort check |
| LocalValidator.AcceptedSortColumnIsFilterable | oql_new.py:1182 | in a catalog built from the configuration, an accepted sort column is filterable |
| InputValidation.CombinedText | validate.py:10-12 | the checked text has length len(title) + 1 + len(abstract), a missing abstract counting as empty |
| InputValidation.ValidateInput | validate.py:4-31 | every refusal has status 400; a missing or empty title gives "A title must be provided" before any length rule |
| InputValidation.AcceptedExactly | validate.py:4-31 | accepted iff the title is non-empty and the combined length is between 20 and 10000 |
| InputValidation.RejectionReasons | validate.py:13-30 | over 10000 gives the "must not exceed" error, under 20 the "must be at least" error |
| InputValidation.MissingAbstractIsEmpty | validate.py:10 | a missing abstract is treated as an empty one |
| PredictionJoin.FirstMatch | concepts.py:49-53 | the index of the first record with the wanted id; none only when no record has it |
| PredictionJoin.MatchedInOrder | concepts.py:48-54 | the predictions that find a record form an ordered sub-list of the predictions |
| PredictionJoin.JoinedFollowsPredictions | concepts.py:48-54 | one output record per matched prediction, in prediction order, each the first API record with that id |
| PredictionJoin.JoinedIds | concepts.py:50 | output record k has id prefix + the id of matched prediction k; the output is no longer than the predictions |
| PredictionJoin.MatchedKeepsEveryHit | concepts.py:48-54 | a prediction whose id has a record is never dropped |
| PredictionJoin.RepeatedIdAliases | concepts.py:49-52 | two matched predictions with one id share one record object |
| PredictionJoin.JoinedScores | concepts.py:51 | with distinct prediction ids, each output record ends with its own prediction's formatted score |
| PredictionJoin.ScoreFirstMatch | concepts.py:49-53 | the inner loop writes the score into the first matching record only and reports its index |
| PredictionJoin.FormatPredictions | topics.py:41-49 | the nested loop returns the specified records and leaves each record with the score of the last prediction that matched it |
| PredictionJoin.FormatConcepts | concepts.py:46-54 | the join under "https://openalex.org/C" with the raw score |
| PredictionJoin.FormatTopics | topics.py:41-49 | the join under "https://openalex.org/T" with `format_score` of the topic score |
| PredictionJoin.FormatKeywords | keywords.py:43-54 | the join under "https://openalex.org/keywords/" with `format_score` of the score |
| ConceptScores.Zip | concepts.py:27 | pairs up to the shorter list, position by position |
| ConceptScores.Insert | concepts.py:28 | inserting adds exactly one element |
| ConceptScores.InsertOrdered | concepts.py:28 | insertion keeps a score-ordered list ordered |
| ConceptScores.InsertStable | concepts.py:28 | insertion keeps tied elements in their original order |
| ConceptScores.SortByScore | concepts.py:28 | the sort is a permutation |
| ConceptScores.SortOrdered | concepts.py:28 | the sort orders scores from highest to lowest |
| ConceptScores.SortStable | concepts.py:28 | the sort is stable on ties |
| ConceptScores.FilterOrdered | concepts.py:29 | dropping elements keeps the order |
| ConceptScores.ConceptPredictions | concepts.py:24-33 | a non-200 answer gives no predictions; every kept score is positive |
| ConceptScores.ConceptPredictionsSpec | concepts.py:27-30 | the result is ordered by score, holds each positive zip pair exactly as often as the zip does and nothing else, and keeps ties in tagger order |

## Left out

- The OpenAI calls are parameters of the model: prompt parsing, the short-circuit completions, tool choice and composition. Their prompts and tool schemas are not part of this model.
- JSON parsing of model output is left out: answers arrive as structured values.
- `str(response.choices[0].message)` and `json.dumps(all_ids)` are modelled as structured message contents, not their text.
- The OQL validator is an uninterpreted function returning `(ok, message)`.
- HTTP requests are not modelled:
  - the entity search (`requests.get`), whose answer is a parameter (status, `meta.count` and result ids);
  - the configuration fetch, whose document is a parameter;
  - the tagger and OpenAlex calls in the three tagging files.
- The search URL's interpolation of a missing name (`None`) is not modelled; the raw name is passed to the search function as an `Option`.
- EntityResolver.EntityId: a response with status 200, a positive `meta.count` and an empty `results` list is excluded by the `SearchResponse` type; the source raises `IndexError` at `results[0]` there (oql_new.py:378, 395 and the other `get_*_id` functions), and the model does not capture that crash. The search endpoint is also a pure function of the kind and the name, so repeated lookups of one name always agree, which the live endpoint does not promise.
- Strings.Lower: lowercases ASCII letters only, because Python's Unicode case mapping is out of scope.
- Strings.Replace: stated through the four operator lemmas only; no general contract is proved.
- `format_score` (rounding to three decimals) is an uninterpreted function on `real`; floating-point scores are modelled as reals.
- Prediction ids are strings; Python's decimal rendering of numeric tag ids in the f-string is not modelled.
- An empty sort dict (`{}`) is modelled as an absent sort, since both are falsy in `check_sort_by`.
- PredictionJoin.FormatPredictions: moves the append out of the inner loop into the caller. The records written and appended are the same, but a record is appended only after `ScoreFirstMatch` returns.
- `print` calls, `lru_cache` memoisation, the Flask routes and request glue (`app.py`, `utils.py`) are left out.
- The stubs returning None (`oql_new.py:230-234`), `oql.py`, `related_to_text.py`, `combined.py` and the schema classes are not part of this model.
