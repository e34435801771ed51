# Conversational Analytics readiness analyzer — a Dafny model

This project models the plain, sequential core of a Flask service. The service reads a
Looker explore, scores the explore's fields by how often the query history uses them, and
helps its owner prepare the explore for Conversational Analytics (CA). It does this with
LookML suggestions, synonyms, agent instructions and a rule-based readiness check. The
Looker SDK, Gemini, Secret Manager and Flask sit around this core. The model takes their
results as already parsed values or as plain parameters.

The modules follow the program:

- `Wrappers`: `Option` and `Result`. The source's error paths are values here.
- `Strings`: the Python `str` operations the code uses. These are `split` on one
  character, `join`, `strip`, `lstrip`, `lower`, `startswith`, `endswith`, `in`, `<`,
  slicing and `re.sub(r'[^\w]', '')`. Python's `lower`, `strip` and `\w` are taken in
  ASCII.
- `History`: the record loop of `fetch_and_process_history`, as an imperative method.
  It is proved against the function `Aggregate`, and the lemmas say what a score is.
  Scores are integers counted in half-units. Every source weight is a multiple of 0.5, so
  this is exact.
- `Ranking`: the top-field ranking of `analyze_lookml`. It is a stable descending sort
  followed by the cut to 15.
- `Sections`: the two `filter_*_for_section` comprehensions and the filter for the
  LookML suggestion lines.
- `Handler`: the `/generate_ca_lookml` handler without its HTTP and Gemini calls. It
  covers:
  - clipping of the inputs;
  - the prompt: a fresh one or a continuation;
  - the countdown search for repeated lines;
  - stitching onto the previous output;
  - the truncation flag.
- `Generation`: `generate_synonyms`, `generate_agent_instructions` and
  `generate_ca_lookml_file_content`. Each is an imperative method proved against a
  specification function or predicate.
- `ConversationAnalytics`: `ConversationAnalyticsAnalyzer`, written as a class. It
  holds:
  - its `results` map;
  - the four checks, as functions returning `Result`; an `Err` is the exception a check
    raises;
  - `run_analysis` and `get_summary`, as methods.

## Model

| member | source | states |
|---|---|---|
| `History.ProcessHistory` | looker_ca_analyzer.py:223-258 | The loop returns the nested scores `Aggregate(records)`. Every record counts as processed, and the skipped count is the number of records that are not used (`CountSkipped`). |
| `History.AggregateScore` | looker_ca_analyzer.py:250-257 | A field's score under a model and explore is the sum, over the records in order, of each record's contribution. Only used records of that model and explore contribute. |
| `History.ItemsCreditIsProduct` | looker_ca_analyzer.py:255-257 | A field listed k times in one record is credited k times `run_count * user_count * weight`. Non-string and empty entries credit nothing. |
| `History.AddItemsScore` | looker_ca_analyzer.py:255-257 | Crediting one record's list adds its credit to that explore's fields only. Every other model, explore and field keeps its score. |
| `History.SkippedRecordIgnored` | looker_ca_analyzer.py:236-248 | A record without a model or explore, with a zero count, or whose field list did not parse to a list changes no score, wherever it stands. |
| `History.SkippedAndUsed` | looker_ca_analyzer.py:227-248 | Every record is either used or skipped. The scores depend on the used records alone. |
| `History.AggregateNamesHave` | looker_ca_analyzer.py:255-257 | A field has an entry under a model and explore exactly when some used record of that pair lists it as a non-empty string. This holds even when the field's score is 0 (weight of "cache"). |
| `History.AggregateNamesGrow` | looker_ca_analyzer.py:255-257 | More records only append fields to an explore's dictionary. The fields keep the order in which they were first credited, as a Python dict does. |
| `History.AggregateWellFormed` | looker_ca_analyzer.py:255-257 | No explore's dictionary holds a field twice. |
| `History.BumpScore` | looker_ca_analyzer.py:257 | `+= q` on a defaultdict adds `q` to that field and changes no other field. |
| `History.BumpNames` | looker_ca_analyzer.py:257 | `+= q` keeps the existing keys in order and appends the field when it is new. |
| `History.CreditScoresOf` | looker_ca_analyzer.py:257 | Crediting touches exactly one model/explore entry. |
| `History.UsedRecords` | looker_ca_analyzer.py:236-248 | Every record it keeps is valid. |
| `Ranking.SortDesc` | looker_ca_analyzer.py:396 | `sorted(..., reverse=True)` on the score: the result is in descending score order and is a permutation of the input. |
| `Ranking.InsertSorted` | looker_ca_analyzer.py:396 | One step of the sort keeps the list in descending order. |
| `Ranking.InsertPerm` | looker_ca_analyzer.py:396 | One step of the sort adds exactly the inserted entry. |
| `Ranking.InsertStable` | looker_ca_analyzer.py:396 | Insertion puts an entry first among those of its score. |
| `Ranking.SortDescStable` | looker_ca_analyzer.py:396 | The sort is stable: for every score, the entries with that score keep their input order. |
| `Ranking.StableSortUnique` | looker_ca_analyzer.py:396 | A descending, stable arrangement is unique, so `SortDesc` is Python's `sorted` result and no other. |
| `Ranking.TopFields` | looker_ca_analyzer.py:396-397 | The top fields number `min(15, n)`, are in descending order, and are the start of the full ranking. |
| `Ranking.TopFieldsCut` | looker_ca_analyzer.py:396-397 | The top fields come from the input (all of it when there are at most 15). Every entry that is cut scores no more than every entry kept. |
| `Ranking.TopFieldsStable` | looker_ca_analyzer.py:396-397 | Ties keep first-seen order: for each score, the kept entries are the first entries of that score in the input. |
| `Ranking.RankExplore` | looker_ca_analyzer.py:395-397 | At most 15 entries, in descending order. An absent model gives none. |
| `Sections.FilterBy` | looker_ca_analyzer.py:483-493 | A list comprehension with a condition: an order-preserving subsequence whose every element passes, with as many elements as pass in the input. |
| `Sections.FilterIdempotent` | looker_ca_analyzer.py:535-536 | Filtering twice with one test is filtering once. |
| `Sections.FilterFieldsForSection` | looker_ca_analyzer.py:487-493 | For the explore section, the fields with no '.' or whose name mentions "join". For a view, the fields whose lowered name starts with the lowered view and '.'. Order is kept and nothing that passes is lost. |
| `Sections.FilterRecommendationsForSection` | looker_ca_analyzer.py:479-485 | For the explore section, the recommendations that mention "explore", "join" or "all". For a view, those that mention the view or "all". Order is kept and nothing that passes is lost. |
| `Sections.RefilterIsIdentity` | looker_ca_analyzer.py:535-536 | For a view section, the handler's second filter returns the first filter's output unchanged. |
| `Sections.RelevantSuggestions` | looker_ca_analyzer.py:526-532 | No suggestions give "". Otherwise, splitting the result at newlines gives back exactly the kept lines, or "" when none is kept. |
| `Handler.PrepareInputs` | looker_ca_analyzer.py:505-537 | See below. |
| `Handler.LastLines` | looker_ca_analyzer.py:540 | Splitting the quoted text gives exactly the last `min(30, n)` lines of the stripped previous output. |
| `Handler.ContinuationPrompt` | looker_ca_analyzer.py:541-544 | It starts with the previous prompt unchanged, contains the instruction not to repeat, and ends with `LAST_LINES:` and the quoted lines. |
| `Handler.CleanItemCleaned` | looker_ca_analyzer.py:475 | The cleaned line is a window `line[a..b]`. Before it come the leading bullet characters (`-*0123456789. `), then only white space. After it comes only white space. The window neither starts nor ends with white space, and it holds no line break the line does not. |
| `Handler.CleanedFromUnique` | looker_ca_analyzer.py:475 | That description fits one item per line only, so it determines the cleaned line. |
| `Handler.SummaryItems` | looker_ca_analyzer.py:474-475 | There are as many items as non-blank lines. Item i is the cleaned window of the i-th non-blank line, in order. Lines without breaks give items without breaks. |
| `Handler.SummaryLines` | looker_ca_analyzer.py:472-476 | The summary is stripped and split at newlines. There is one item per non-blank line, which is no more than the number of lines, and item i is the cleaned window of the i-th non-blank line. No item holds a line break. |
| `Handler.PromptHeader` | looker_ca_analyzer.py:549-575 | The template holds the user-context block and ends with the "Summarized Recommendations:" heading. |
| `Handler.BulletsSplit` | looker_ca_analyzer.py:576-577 | Each summarized recommendation becomes exactly one "- " line of the prompt, in order. |
| `Handler.SuggestionsPart` | looker_ca_analyzer.py:578-579 | The suggestions block is empty exactly when there are no relevant suggestions. Otherwise it opens with its heading and the suggestions. |
| `Handler.FreshPrompt` | looker_ca_analyzer.py:549-580 | A fresh prompt starts with the filled-in template and ends with the closing instruction. |
| `Handler.FreshPromptLines` | looker_ca_analyzer.py:576-580 | After the header, the prompt's lines are the bullet lines, then the suggestions and the closing instruction. |
| `Handler.BuildFreshPrompt` | looker_ca_analyzer.py:576-580 | The appending loop builds exactly `FreshPrompt`. |
| `Handler.PromptFor` | looker_ca_analyzer.py:539-580 | With the flag, the previous prompt and the previous output, the prompt continues the previous prompt. Otherwise it is a fresh prompt ending with the closing instruction. |
| `Handler.Overlap` | looker_ca_analyzer.py:588-593 | The overlap is at most 30 and at most the number of lines of either side. When positive, the last lines of the previous output equal the first lines of the new. No larger run up to the maximum matches. |
| `Handler.FindOverlap` | looker_ca_analyzer.py:588-593 | The countdown loop with `break` returns exactly `Overlap`. |
| `Handler.Separator` | looker_ca_analyzer.py:596 | The separator is "\n" unless the previous output already ends with "\n", in which case it is "". |
| `Handler.SeparatorEndsLine` | looker_ca_analyzer.py:596 | The previous output followed by the separator always ends with a newline, so the new part starts on a line of its own. |
| `Handler.Lines` | looker_ca_analyzer.py:586-587 | `strip().split('\n')` gives at least one line, and no line holds a break. |
| `Handler.StitchedStart` | looker_ca_analyzer.py:596 | The stitched code begins with the previous output unchanged, then the separator, then the new part. |
| `Handler.DropRepeatedLines` | looker_ca_analyzer.py:594-595 | See below. |
| `Handler.Stitch` | looker_ca_analyzer.py:585-596 | The stitching returns `StitchedCode`. |
| `Handler.StickyTruncationAsWritten` | looker_ca_analyzer.py:598-600 | As written, once the previous output carries the truncation marker, every continuation reports truncation. |
| `Handler.TruncationMisreported` | looker_ca_analyzer.py:598-600 | A concrete case: a complete one-line reply "}" without the marker is still flagged truncated as written. |
| `Handler.TruncationFlagsAgree` | looker_ca_analyzer.py:598-600 | When no stitching happens, the corrected flag equals the flag as written. |
| `Handler.GenerateCaLookml` | looker_ca_analyzer.py:505-606 | The reply's prompt is `PromptFor`, its code is the stitched code (or the raw reply), and its flag says whether this reply carries the marker (see Findings). |
| `Generation.GenerateSynonyms` | looker_ca_analyzer.py:262-276 | See below. |
| `Generation.FieldWords` | looker_ca_analyzer.py:266-268 | The first loop collects exactly the lowered field words. |
| `Generation.AddLabelWords` | looker_ca_analyzer.py:270-274 | The second loop adds exactly the lowered cleaned label words. |
| `Generation.SortedList` | looker_ca_analyzer.py:276 | `sorted(list(words))` is ascending with no repeats, and has the set's elements. |
| `Generation.InsertSorted` | looker_ca_analyzer.py:276 | Inserting keeps the list strictly ascending, with the inserted element added. |
| `Generation.SynonymShape` | looker_ca_analyzer.py:267-274 | Every synonym is lower-case and longer than two characters. |
| `Generation.StrictlySortedUnique` | looker_ca_analyzer.py:276 | Two strictly ascending lists with the same elements are equal, so the synonym list is determined by its inputs. |
| `Generation.UpperStopWordKept` | looker_ca_analyzer.py:267-268 | Stop words are compared as written: "ORDER_KEY" yields the synonym "key". |
| `Generation.StopWordDropped` | looker_ca_analyzer.py:267-268 | "order_key" with no label does not yield "key". |
| `Generation.KeptAsWritten` | looker_ca_analyzer.py:266-268 | A kept word after an underscore gives its lower-case form. |
| `Generation.DroppedAsWritten` | looker_ca_analyzer.py:266-268 | A stop word after an underscore gives no synonym. |
| `Generation.TopFieldNames` | looker_ca_analyzer.py:290 | The names of the first `min(5, n)` top fields, in rank order. |
| `Generation.GenerateAgentInstructions` | looker_ca_analyzer.py:278-297 | The appending method returns `AgentInstructions`. |
| `Generation.AgentInstructionsOrder` | looker_ca_analyzer.py:280-297 | The list is never empty and holds at most four entries. Their kinds strictly increase: description, questions, goals, top fields, or only the fallback. |
| `Generation.AgentInstructionsPresence` | looker_ca_analyzer.py:282-295 | See below. |
| `Generation.FieldsLineLast` | looker_ca_analyzer.py:289-292 | With top fields, the last entry is "Most Common Fields: " joined with ", ". It names between one and five fields: the first ones, in rank order. |
| `Generation.SplitKey` | looker_ca_analyzer.py:301 | There is no result exactly when the key has no '/'. Otherwise the model part has no '/' and the parts rebuild the key around the first '/'. |
| `Generation.KeyRoundTrip` | looker_ca_analyzer.py:301 | Splitting "model/explore" gives back the model and the explore. |
| `Generation.GenerateCaLookmlFileContent` | looker_ca_analyzer.py:299-357 | A key without '/' raises (`Err`). Otherwise the appending method returns the lines of `FileLines` joined with newlines. |
| `Generation.AppendJoinBlocks` | looker_ca_analyzer.py:345-353 | The join loop appends the blocks of all joins, in order. |
| `Generation.AppendJoinBlock` | looker_ca_analyzer.py:346-353 | One iteration appends the block of its join. An unnamed join appends nothing. |
| `Generation.AppendOptional` | looker_ca_analyzer.py:350-352 | An `if value: lines.append(...)` step appends the line exactly when the value is set. |
| `Generation.JoinBlocksAppend` | looker_ca_analyzer.py:345-353 | The blocks of two runs of joins are the first run's blocks, then the second's. |
| `Generation.FileFrame` | looker_ca_analyzer.py:307-357 | The file starts with the title comment naming the key and ends with the closing brace. |
| `Generation.FileMentions` | looker_ca_analyzer.py:334-348 | The file declares the extended explore. It extends the base view when there is one, and opens a block for every named join. |
| `Generation.UnnamedJoinIgnored` | looker_ca_analyzer.py:346-347 | A join without a name adds nothing, wherever it stands. |
| `Generation.JoinBlocksOpenCount` | looker_ca_analyzer.py:345-353 | There is exactly one `join:` opening line per named join. |
| `ConversationAnalytics.AnyNamed` | src/conversation_analytics.py:59-60 | Short-circuit `any`: `true` means some dimension has the name. `false` means none has it. `Err` (KeyError) means a dimension without a name, which cannot happen when all have names. |
| `ConversationAnalytics.MissingNames` | src/conversation_analytics.py:58-60 | See below. |
| `ConversationAnalytics.AnalyzeDimensions` | src/conversation_analytics.py:48-72 | See below. |
| `ConversationAnalytics.MetricCoverage` | src/conversation_analytics.py:84-86 | It succeeds exactly when every measure has a string name. The count is the number of measures whose lowered name mentions "count", "sum" or "average", each counted once. |
| `ConversationAnalytics.AnalyzeMeasures` | src/conversation_analytics.py:74-98 | See below. |
| `ConversationAnalytics.AnalyzeJoins` | src/conversation_analytics.py:100-121 | Never FAIL. PASS exactly when some join has type "left_outer", and then it carries `join_count`. |
| `ConversationAnalytics.AnalyzeTimeDimensions` | src/conversation_analytics.py:123-138 | Never WARNING. FAIL exactly when no dimension has type "time". PASS carries the number of time dimensions. |
| `ConversationAnalytics.Outcome` | src/conversation_analytics.py:150-157 | A check that raises records FAIL with "Error during analysis: " and the exception text. Otherwise the check's result is recorded. |
| `ConversationAnalytics.OutcomesStep` | src/conversation_analytics.py:149-157 | Each pass of the loop adds the next aspect's outcome on top of the outcomes recorded so far. |
| `ConversationAnalytics.AllOutcomes` | src/conversation_analytics.py:142-157 | The keys are exactly "dimensions", "measures", "joins" and "time_dimensions". Each holds its own check's outcome, so one failing check affects only its key. |
| `ConversationAnalytics.WithStatus` | src/conversation_analytics.py:167-170 | The aspects whose result has the given status. |
| `ConversationAnalytics.SummaryOf` | src/conversation_analytics.py:166-181 | The total is the number of results, and passed and failed count those statuses. The details hold each aspect's status and message. |
| `ConversationAnalytics.SummaryCounts` | src/conversation_analytics.py:166-178 | The warning count is the number of WARNING results, and the three counts add up to the total. The overall status is PASS exactly when no result is FAIL, and FAIL otherwise. |
| `ConversationAnalytics.Analyzer.constructor` | src/conversation_analytics.py:38-46 | A new analyzer has no results. |
| `ConversationAnalytics.Analyzer.RunAnalysis` | src/conversation_analytics.py:140-159 | `results` becomes the old results overridden by the four outcomes, and the method returns it. |
| `ConversationAnalytics.Analyzer.Record` | src/conversation_analytics.py:150-157 | One `try` step sets exactly one key to its outcome. |
| `ConversationAnalytics.Analyzer.GetSummary` | src/conversation_analytics.py:161-181 | See below. |
| `ConversationAnalytics.SummaryTwice` | src/conversation_analytics.py:163-164 | The second of two summaries runs nothing, changes nothing and equals the first. |

The longer entries:

- `Handler.PrepareInputs` states that:
  - at most 7 recommendations and 10 weighted fields are kept;
  - they are exactly what `filter_recommendations_for_section` and
    `filter_fields_for_section` return for the clipped inputs, duplicates and order
    included;
  - for a view, every kept field starts with "<view>.";
  - each user-context string is a prefix of at most 300 characters;
  - the suggestions are exactly the relevant suggestion lines (`RelevantSuggestions`);
  - `use_extends` is forced on for a view.
- `Handler.DropRepeatedLines` states that:
  - without an overlap, the new code is kept as it came;
  - with an overlap, the dropped lines are exactly the repeated ones;
  - the remaining lines follow in order, or "" is left when every line repeats.
- `Generation.GenerateSynonyms` states that:
  - the result is strictly ascending, with no duplicates;
  - it contains exactly the lowered field words longer than two characters that are not stop words as written;
  - it also contains the lowered, cleaned label words longer than two characters, when there is a label.
- `Generation.AgentInstructionsPresence` states that:
  - each context entry is present exactly when its input is non-empty;
  - the fields line is present exactly when there are top fields;
  - the fallback is present exactly when there is nothing else.
- `ConversationAnalytics.MissingNames` states that:
  - on success, the result is the required names that no dimension has, in the required order;
  - `Err` (KeyError) happens only when some dimension has no name;
  - when every dimension has a name, the result is always a success.
- `ConversationAnalytics.AnalyzeDimensions` states that:
  - no dimensions gives FAIL with "No dimensions found in the Explore";
  - the result is never WARNING;
  - when every dimension has a name, it is PASS exactly when "date", "user_id" and "session_id" are all present, and PASS carries `dimension_count`;
  - any other FAIL has the message "Missing required dimensions: " followed by the missing names (`MissingNames`, in the required order) joined with ", ";
  - `Err` happens only for a dimension without a name.
- `ConversationAnalytics.AnalyzeMeasures` states that:
  - no measures gives WARNING;
  - the result is never FAIL;
  - it raises exactly when some measure has no string name;
  - otherwise it is PASS exactly when the coverage is at least 2, and PASS carries `measure_count`.
- `ConversationAnalytics.Analyzer.GetSummary` states that:
  - it runs the analysis only when nothing is recorded;
  - otherwise it leaves `results` unchanged;
  - it returns `SummaryOf(results)`.

## Left out

- External services are left out. These are Secret Manager, the Looker SDK (the history
  query and the explore fetch), Vertex AI and Gemini. Their results are parameters:
  - the history records;
  - the decoded explore definition;
  - the summary reply;
  - the LookML reply.
- The Gemini prompt of `analyze_lookml` (`generate_gemini_prompt`) and the prompt of
  `summarize_recommendations_with_gemini` are left out. They are prose, and their
  replies are parameters. Only the post-processing of the summary reply is modelled.
- Flask, CORS, `main.py` and `run_local.py` are left out, as HTTP plumbing. The request
  body is a datatype, and the caller fills in the defaults:
  - absent user-context strings, previous prompt, previous output and suggestions are "";
  - absent lists are empty and absent flags are `false`;
  - an absent `section` is "explore", the default at looker_ca_analyzer.py:505.
- `model_name` and `explore_name` have no default (looker_ca_analyzer.py:503-504). When
  they are absent, Python shows `None` in the prompt. The model takes the text the prompt
  shows as given, so the caller passes "None". It does not model a `None` value.
- Aliasing is left out. `run_analysis` returns the analyzer's own `results` dictionary,
  and `__init__` keeps a reference to the caller's `explore_data`. In the model the
  results are a value map and the explore is a `const`, so a caller that later changes
  either object is not modelled.
- `json.loads` and `json.dumps` are left out. Field lists, explore definitions and
  explore metadata are already-parsed datatypes, with an explicit case for a failed
  parse or a value of the wrong shape.
- `Handler.PromptHeader` relies on a text parameter (`fieldsText`) for Python's `repr` of
  the filtered field list embedded in the template, because `repr` of lists and floats
  is not modelled.
- `Handler.PromptHeader` states the template's structure, not its full prose.
- Floating point is left out. Scores are exact integers in half-units, and
  `round(score, 2)` at looker_ca_analyzer.py:397 is not modelled.
- Unicode is left out. `lower`, `strip` and `\w` cover ASCII only.
- `History.ProcessHistory` takes `run_count` and `user_count` as integers. It does not
  model a JSON value of another type, or the float conversion before multiplying.
- The `###`-section parser of `analyze_lookml` (looker_ca_analyzer.py:413-436) is left
  out. It parses Gemini's free-text reply with `int()`, multi-character splits and a
  broad `except`. Its outputs reach the core only as the recommendations and suggestions
  passed to the handler.
- The `recommendations` parameter of `generate_agent_instructions` and the `parsed_data`
  parameter of `generate_ca_lookml_file_content` are accepted by the source and never
  used. The model keeps the first and omits the second.
- The `model_name` and `use_extends` of the handler only reach the prompt text or
  nothing at all. `use_extends` is computed in `Prepared` and is not used further.
- `ConversationAnalytics.AnyNamed` (through `NameValue`) simplifies its inputs. A
  dimension or measure is a record whose name is missing, not a string, or a string.
  Entries that are not dictionaries, and names that are non-string Python values
  comparing equal to a string, are not modelled.
- `ConversationAnalytics.MetricCoverage` takes the type name shown in an `AttributeError`
  message as data (`NonString(typeName)`).
- Logging (`logger.error`, `print`) is left out.
- The iteration order of Python dictionaries in `results` and in the summary's details
  is not modelled. Maps are unordered here.
- `test_analyzer.py` and `test_flask_app.py` are live smoke scripts with no assertions.
  They are not part of this model.

## Findings

| source | as written | input that shows it | evidently intended | confidence | as-written member | corrected member |
|---|---|---|---|---|---|---|
| looker_ca_analyzer.py:598-600 | `is_truncated` tests the returned code. For a continuation, that code starts with the whole previous output. | Any continuation whose previous output began with "Warning: Response truncated (MAX_TOKENS)" (looker_ca_analyzer.py:166). For example, the previous output is the marker followed by a partial explore, and the new reply is the complete line "}". | The flag reports whether this reply was cut off, so a client stops asking for continuations once a reply completes. | low; not executed | `Handler.StickyTruncationAsWritten`, `Handler.TruncationMisreported` | `Handler.GenerateCaLookml` (flag `Handler.IsTruncated` of the reply), with `Handler.TruncationFlagsAgree` |
