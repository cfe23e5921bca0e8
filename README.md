# llm-robotics-reflection in Dafny

This project models the deterministic bookkeeping of MAPIRlab/llm-robotics-reflection, a
study of LLM-based task planners for robots working over 3D semantic maps. Four planning
workflows run over every map and every query, each with four LLM providers:
- `base`: plan once;
- `self_reflection`: plan, reflect, correct;
- `multiagent_reflection`: three agents that keep their conversations;
- `ensemble`: four planners, then a chooser.

Each workflow writes its replies into a result folder. An evaluator then loads one final plan
per (mode, method, provider, map, query). A small Tk tool lets humans annotate the ground truth.

The model covers:
- the rank-bucket counters used to score a plan;
- the JSON extraction and retry loop around each LLM call;
- the conversation log with its two exports;
- the dictionary helpers;
- the prompt templates;
- the semantic-map filter;
- the four workflows and the method dispatch;
- result loading;
- the annotation tool's parsing, validation, saving and highlighting;
- the label mappers of two result tables.

Whatever talks to a model, a disk or a window is a parameter of the model:
- The LLM is an oracle `reply(provider, messages)(attempt)`.
- `json.loads` is a predicate `parses`.
- The result folder is a map from path (the components given to `os.path.join`) to content.
- The evaluator's folder also carries `os.listdir` and `json.load` as functions.

One Dafny module per source file:

| module | source |
|---|---|
| `ComparisonResult` | `src/compare/comparison_result.py` |
| `LargeLanguageModel` | `src/llm/large_language_model.py` |
| `ConversationHistory` | `src/llm/conversation_history.py` (class `History`) |
| `DictUtils` | `src/utils/dict_utils.py` |
| `Prompt` | `src/prompt/prompt.py` |
| `ChooserPrompt` | `src/prompt/chooser_prompt.py` |
| `Preprocess` | `src/voxelad/preprocess.py` |
| `Artifacts` | the result-folder path layout shared by `src/main.py` and `src/evaluate.py` |
| `Workflows` | `src/main.py` (class `Experiment`, whose fields are the result folder and the log of LLM requests) |
| `Evaluate` | `src/evaluate.py` |
| `Annotate` | `src/annotate.py` (class `Annotator`, the tool's table state) |
| `TableWorkflowsGeneralComparison` | `src/results/table_workflows_general_comparison.py` |
| `Table1` | `src/results/table_1.py` |
| `Constants` | `src/constants.py` |

`Strings` holds the Python `str` built-ins the code uses:
- `find` and `rfind`;
- `split` and `join`;
- `strip` and `lower`;
- `int` and `str`;
- `replace` and `startswith`.

`Wrappers` holds `Option` and `Result`. Exceptions are `Err` values named by their class.

## Model

| member | source | states |
|---|---|---|
| ComparisonResult.Default | src/compare/comparison_result.py:8-12 | a result built with no arguments equals `no_hit()`, so all four counters are zero |
| ComparisonResult.Add | src/compare/comparison_result.py:14-26 | each counter of `a + b` is the sum of the operands' counters, in a new value |
| ComparisonResult.AddOperand | src/compare/comparison_result.py:14-19 | adding anything that is not a `ComparisonResult` raises `TypeError`; otherwise it is `Add` |
| ComparisonResult.TopOneHit | src/compare/comparison_result.py:35-39 | a top-1 hit sets every bucket and keeps the nesting `top_1 <= top_2 <= top_3 <= any_position <= 1` |
| ComparisonResult.TopTwoHit | src/compare/comparison_result.py:42-46 | a top-2 hit is nested, misses top-1 and sets top-2 |
| ComparisonResult.TopThreeHit | src/compare/comparison_result.py:49-53 | a top-3 hit is nested, misses top-2 and sets top-3 |
| ComparisonResult.AnyPositionHit | src/compare/comparison_result.py:56-61 | an any-position hit is nested, misses top-3 and sets any_position |
| ComparisonResult.NoHit | src/compare/comparison_result.py:64-68 | a miss is nested and all zero |
| ComparisonResult.UnitResultBounds | src/compare/comparison_result.py:35-68 | every hit constructor yields a nested result with counters between 0 and 1 |
| ComparisonResult.NoHitIsIdentity | src/compare/comparison_result.py:21-26 | `no_hit()` is a two-sided identity for `+` |
| ComparisonResult.AddCommutative | src/compare/comparison_result.py:21-26 | `+` is commutative |
| ComparisonResult.AddAssociative | src/compare/comparison_result.py:21-26 | `+` is associative |
| ComparisonResult.AddPreservesNested | src/compare/comparison_result.py:21-26 | `+` keeps the nesting invariant |
| ComparisonResult.SumOfUnitResults | src/compare/comparison_result.py:21-26 | a sum of n hit results is nested and its any_position is at most n |
| ComparisonResult.SumOfAllFactories | src/compare/comparison_result.py:86-88 | the sum of the five constructors is `(1, 2, 3, 4)` |
| LargeLanguageModel.FirstOpener | src/llm/large_language_model.py:53-67 | the chosen start is the first `{` or `[`, whichever comes first, or -1 when there is neither |
| LargeLanguageModel.CleanResponseSpec | src/llm/large_language_model.py:53-72 | `_clean_response` slices from the first opener to the last closer of the same kind, and is `""` when that closer does not follow the opener |
| LargeLanguageModel.CleanResponseNoOpener | src/llm/large_language_model.py:62-72 | with no opener the result is `""` |
| LargeLanguageModel.CleanResponseAtOpener | src/llm/large_language_model.py:61-72 | from the chosen opener, the result ends at the last matching closer, or is `""` |
| LargeLanguageModel.FirstOpenerFinds | src/llm/large_language_model.py:54-62 | `find` of the first opener gives its index, and the other opener is absent or later |
| LargeLanguageModel.CleanResponseIsSlice | src/llm/large_language_model.py:69-72 | the result is `""` or a contiguous non-empty slice of the input |
| LargeLanguageModel.CleanResponseWithoutOpener | src/llm/large_language_model.py:53-72 | text without `{` and `[` cleans to `""` |
| LargeLanguageModel.CleanResponseShape | src/llm/large_language_model.py:61-70 | a non-empty result starts with an opener and ends with its own closer |
| LargeLanguageModel.CleanResponseIdempotent | src/llm/large_language_model.py:53-72 | cleaning a cleaned string returns it unchanged |
| LargeLanguageModel.Attempt | src/llm/large_language_model.py:90-104 | one try raises exactly when `generate_text` raises; otherwise it parses or not on the cleaned text |
| LargeLanguageModel.JsonCalls | src/llm/large_language_model.py:88-106 | between 1 and `JSON_MAX_ATTEMPTS` calls to `generate_text` |
| LargeLanguageModel.GenerateJson | src/llm/large_language_model.py:88-110 | the loop returns the retry function's value after at most 10 calls to `generate_text` |
| LargeLanguageModel.JsonReturnsFirstParse | src/llm/large_language_model.py:95-99 | the cleaned text of the first attempt that parses is returned, after exactly that many calls |
| LargeLanguageModel.JsonPropagatesRaise | src/llm/large_language_model.py:91-101 | an exception from `generate_text` propagates; only parse errors are retried |
| LargeLanguageModel.JsonSentinelAfterAllFail | src/llm/large_language_model.py:106-110 | when every attempt fails to parse, `"{}"` is returned after 10 calls |
| LargeLanguageModel.JsonNeverFailsWithoutRaise | src/llm/large_language_model.py:88-110 | without a raise the result is `"{}"` or text that parses |
| ConversationHistory.MessageOf | src/llm/conversation_history.py:29 | a message is a two-key dict with exactly the given role and content |
| ConversationHistory.SystemMessage | src/llm/conversation_history.py:18-29 | `system_message` has role `system` and the given content |
| ConversationHistory.AssistantMessage | src/llm/conversation_history.py:32-43 | `assistant_message` has role `assistant` and the given content |
| ConversationHistory.UserMessage | src/llm/conversation_history.py:46-57 | `user_message` has role `user` and the given content |
| ConversationHistory.History.constructor | src/llm/conversation_history.py:59-68 | a new history is empty |
| ConversationHistory.History.AppendSystemMessage | src/llm/conversation_history.py:86-94 | exactly one system message is added at the end; earlier messages are unchanged |
| ConversationHistory.History.AppendAssistantMessage | src/llm/conversation_history.py:96-104 | exactly one assistant message is added at the end |
| ConversationHistory.History.AppendUserMessage | src/llm/conversation_history.py:106-114 | exactly one user message is added at the end |
| ConversationHistory.History.Clear | src/llm/conversation_history.py:116-120 | the history is empty afterwards |
| ConversationHistory.History.ChatGptHistory | src/llm/conversation_history.py:122-129 | the ChatGPT export is the message list as is |
| ConversationHistory.History.GeminiHistory | src/llm/conversation_history.py:131-170 | the loop computes the first system message's content and the Gemini turns, as `SystemInstruction` and `GeminiContents` define them |
| ConversationHistory.TurnsConcat | src/llm/conversation_history.py:157-166 | the turns of two logs in a row are the turns of each, in order |
| ConversationHistory.TurnsRoles | src/llm/conversation_history.py:161-164 | no turn has the system role; assistant becomes `model` |
| ConversationHistory.SystemInstructionAbsent | src/llm/conversation_history.py:143-148 | the instruction is `None` exactly when no message has the system role |
| ConversationHistory.SystemInstructionKeepsFirst | src/llm/conversation_history.py:143-146 | later messages never change the instruction: it is the first system message's |
| ConversationHistory.LoneSystemMessageExport | src/llm/conversation_history.py:152-155 | a log of one system message exports as that instruction and a single user turn with its content |
| ConversationHistory.SystemThenUserExport | src/llm/conversation_history.py:143-166 | `[system(s), user(q)]` exports as instruction `s` and the one user turn `q` |
| ConversationHistory.EmptyExport | src/llm/conversation_history.py:143-166 | an empty history exports as `(None, [])` |
| DictUtils.Get | src/utils/dict_utils.py:29 | `d.get(k)` is the stored value, or `None` for a missing key |
| DictUtils.FirstWith | src/utils/dict_utils.py:10-13 | the index of the first dict holding the pair, or -1 when none does; dicts without the key are skipped |
| DictUtils.SearchDictByKeyValue | src/utils/dict_utils.py:6-13 | the loop returns the first dict with the key and an equal value, else `None` |
| DictUtils.FirstWithIs | src/utils/dict_utils.py:10-13 | the first match is unique |
| DictUtils.SearchDictList | src/utils/dict_utils.py:16-31 | the loop returns the matching dicts in their original order |
| DictUtils.MatchingExactly | src/utils/dict_utils.py:27-31 | every returned dict matches every criterion, and every matching dict is returned |
| DictUtils.MatchingNoCriteria | src/utils/dict_utils.py:27-31 | empty criteria return every dict, in order |
| DictUtils.NoneCriterionMatchesMissingKey | src/utils/dict_utils.py:29 | a criterion `k: None` matches a dict that lacks `k` |
| DictUtils.DeleteKeys | src/utils/dict_utils.py:34-48 | the keys are the original keys minus `keys`; values are unchanged |
| DictUtils.AllValuesNoneExceptKeys | src/utils/dict_utils.py:51-72 | true exactly when every key outside `keys` maps to `None` |
| DictUtils.AllNoneExceptIsDeleteKeys | src/utils/dict_utils.py:34-72 | the check holds exactly when deleting `keys` leaves only `None` values |
| Prompt.ReplacePromptDataDict | src/prompt/prompt.py:41-60 | the loop replaces every `{{key}}`, key by key in dict order |
| Prompt.SubstitutedWithoutPlaceholders | src/prompt/prompt.py:57-60 | text with no placeholder of the dict comes back unchanged, and so does any text for an empty dict |
| Prompt.SubstitutedIdentity | src/prompt/prompt.py:57-60 | mapping each key to its own placeholder changes nothing |
| Prompt.SubstitutedConcat | src/prompt/prompt.py:57-60 | substituting two dicts in a row is substituting their concatenation |
| Prompt.PromptText | src/prompt/prompt.py:62-72 | `get_prompt_text` with no keyword data is the system prompt itself |
| ChooserPrompt.ReplaceLlmResponses | src/prompt/chooser_prompt.py:54-61 | the loop builds the numbered block and puts it in place of `{{llm_responses}}` |
| ChooserPrompt.BlockSnoc | src/prompt/chooser_prompt.py:57-59 | one more response adds its entry, numbered by its position, at the end |
| ChooserPrompt.BlockPrefix | src/prompt/chooser_prompt.py:57-59 | the block of a prefix of the responses is a prefix of the block |
| ChooserPrompt.BlockEntryAt | src/prompt/chooser_prompt.py:57-59 | response i appears as `RESPONSE i: \n` + response + `\n`, right after the entries before it |
| ChooserPrompt.GlobalReplace | src/prompt/chooser_prompt.py:63-68 | the responses are substituted before the keyword placeholders |
| ChooserPrompt.NoResponsesEmptyBlock | src/prompt/chooser_prompt.py:54-61 | with no responses the placeholder becomes `""` |
| ChooserPrompt.ResponsesSubstitutedFirst | src/prompt/chooser_prompt.py:63-68 | a response that contains a keyword placeholder gets that placeholder filled in too, because the responses go in first |
| Preprocess.ArgMax | src/voxelad/preprocess.py:63-71 | the index of the first maximum score, or -1 for no results |
| Preprocess.ArgMaxIs | src/voxelad/preprocess.py:63-71 | the first maximum is unique |
| Preprocess.MaxLabel | src/voxelad/preprocess.py:63-71 | the label of the first maximum, or `None` for empty results |
| Preprocess.MaxResultKey | src/voxelad/preprocess.py:63-71 | the strict-`<` loop finds the first maximum's label |
| Preprocess.ReduceClassUncertainty | src/voxelad/preprocess.py:31-77 | the loop computes `ReducedMap`: the instances kept by their max label, or `KeyError` |
| Preprocess.FilteredExactly | src/voxelad/preprocess.py:61-75 | the kept instances are input entries, unchanged, whose max label is not `"unknown"`, and every such entry is kept; an instance with empty results is kept |
| Preprocess.FilteredMissingResults | src/voxelad/preprocess.py:67 | an instance without `results` makes the call raise `KeyError` |
| Preprocess.FilteredErrorIsKeyError | src/voxelad/preprocess.py:61-67 | the only failure is `KeyError` |
| Preprocess.TieGoesToFirst | src/voxelad/preprocess.py:69 | on a tie the first label wins |
| Preprocess.ReducedMapKeys | src/voxelad/preprocess.py:58-59 | the new dict's only key is `"instances"` |
| Preprocess.PreprocessSemanticMap | src/voxelad/preprocess.py:80-87 | the map is filtered only when `class_uncertainty` is false; floats are rounded in both cases |
| Artifacts.ProviderNameInjective | src/llm/google_gemini_provider.py:38-39 | distinct providers have distinct provider names |
| Artifacts.PlanFileInjective | src/main.py:285-312 | each provider's ensemble plan file has its own name, and none is `choice.json` |
| Artifacts.QueryDir | src/main.py:50-56 | the query folder is `LLM_RESULTS/mode/method/[provider/]map/str(query_idx)` |
| Artifacts.ArtifactPath | src/main.py:50-56 | the artifact path has the provider segment exactly when one is given, and ends with map, query index and file |
| Artifacts.ArtifactPathInjective | src/main.py:50-56 | two artifacts of one method and map share a path only if provider, query index and file name agree |
| Artifacts.ArtifactPathOtherProvider | src/main.py:50-56 | another provider's artifact is outside a provider's folder |
| Artifacts.ProviderDirsApart | src/main.py:50-56 | different providers' folders are disjoint |
| Artifacts.QueryDirsApart | src/main.py:90-96 | different queries' folders are disjoint |
| Artifacts.OnlyUnderSave | src/main.py:57-59 | saving a file inside a folder leaves everything outside the folder unchanged |
| Workflows.RunOf | src/main.py:32-59 | a step completes exactly when its request returns, and aborts with the exception it raised |
| Workflows.FirstAbortMeaning | src/main.py:26-59 | a loop whose body may raise completes exactly when every iteration does; otherwise it ends with the exception of the first iteration that raised, all earlier ones having completed |
| Workflows.FirstAbortKept | src/main.py:26-59 | once an iteration raised, the later iterations do not run, so the outcome stays that exception |
| Workflows.FirstAbortAt | src/main.py:26-59 | an iteration that raises after iterations that all completed decides the loop's outcome |
| Workflows.FirstAbortStep | src/main.py:26-59 | after k completed iterations, iteration k decides the loop so far, and the whole loop if it raises |
| Workflows.ResponsesLayout | src/main.py:259-282 | plan k of query q sits at position 4q+k of `plan_responses` |
| Workflows.ResponsesSnoc | src/main.py:282 | each query appends its plans to `plan_responses` |
| Workflows.Experiment.constructor | src/main.py:317-319 | a new experiment has an empty result folder and an empty request log |
| Workflows.Experiment.GenerateJson | src/llm/large_language_model.py:74-110 | one `generate_json` is recorded with the history it saw; files are untouched |
| Workflows.Experiment.GenerateText | src/llm/large_language_model.py:27-40 | one `generate_text` is recorded with the history it saw |
| Workflows.Experiment.Save | src/main.py:57-59 | saving sets exactly one path |
| Workflows.Experiment.PlanBaseQuery | src/main.py:32-59 | one request on a fresh `[system(planner), user(query)]` history; the reply is saved as `final_plan.json`, and a raise saves nothing |
| Workflows.Experiment.PlanBaseWith | src/main.py:29-59 | one request per query, each on the two-message history; the pass completes exactly when every query's request returns, and otherwise ends with the exception of the first query that raised; when it completes every query's `final_plan.json` holds its reply; only the provider's folder changes |
| Workflows.Experiment.BaseQueries | src/main.py:29-59 | the query loop ends as `BaseOutcome`, the first exception of the provider's requests, and keeps the files of the queries already done |
| Workflows.Experiment.BaseQueryStep | src/main.py:32-59 | query qi, after qi queries that all returned, decides the pass so far, and the whole pass if it raises |
| Workflows.Experiment.BaseOutcomeMeaning | src/main.py:29-59 | a provider's pass completes exactly when no query's request raises, and otherwise ends with the first raising query's exception |
| Workflows.Experiment.PlanBaseOutcomeMeaning | src/main.py:21-59 | `plan_base` completes exactly when no provider raises on any query, and otherwise ends as the first provider whose pass raised |
| Workflows.Experiment.PlanBase | src/main.py:21-58 | `plan_base` completes exactly when no provider raises on any query; otherwise it ends with the exception of the first provider whose pass raised, every earlier provider having completed; when it completes it has sent 4 × queries requests, all on a fresh two-message history, and written one `final_plan.json` per provider and query; only `base` changes |
| Workflows.Experiment.BaseProvider | src/main.py:26-59 | provider pi's pass ends as `BaseOutcome` and, when it completes, adds its files to those of the providers before it |
| Workflows.Experiment.AskFresh | src/main.py:77-87 | a cleared history holds exactly the system and user message when it is sent |
| Workflows.Experiment.ReflectionQuery | src/main.py:75-149 | plan, reflect, correct, each on a cleared two-message history; `first_plan.json`, `self_reflection.txt` and `final_plan.json` hold the three replies, or the first raise stops the query |
| Workflows.Experiment.ReflectAndCorrect | src/main.py:101-149 | reflection uses `generate_text` and correction uses `generate_json`, each saved in the query folder |
| Workflows.Experiment.ReflectionWith | src/main.py:71-149 | one history is reused for every query of a provider; every request sees two messages; the pass completes exactly when no query's plan, reflection or correction raises, and otherwise ends with the exception of the first query that raised; when it completes it has sent three requests per query and written every query's three files |
| Workflows.Experiment.ReflectionQueries | src/main.py:73-149 | the query loop stops at the first query whose requests raise, with that exception, and all queries before it have their three files |
| Workflows.Experiment.ReflectionOutcomeMeaning | src/main.py:73-149 | a provider's pass completes exactly when no query's requests raise, and otherwise ends with the first raising query's exception |
| Workflows.Experiment.ReflectionOutcomeAt | src/main.py:73-149 | the first query whose requests raise ends the provider's pass with that exception |
| Workflows.Experiment.PlanSelfReflection | src/main.py:62-149 | `plan_self_reflection` completes exactly when no provider raises on any request; otherwise it ends as the first provider whose pass raised, every earlier provider having completed; when it completes it has sent 3 × 4 × queries two-message requests and written all three files of every provider and query |
| Workflows.Experiment.ReflectionProviders | src/main.py:68-149 | the provider loop stops at the first provider whose pass raises, ending as that pass, and every provider before it has all its files |
| Workflows.Experiment.ReflectionProvider | src/main.py:68-149 | provider pi's pass ends as `ReflectionOutcome` and, when it completes, adds its files to those of the providers before it |
| Workflows.Experiment.PlanSelfReflectionOutcomeMeaning | src/main.py:62-149 | `plan_self_reflection` completes exactly when no provider raises on any query, and otherwise ends as the first provider whose pass raised |
| Workflows.Experiment.PlanSelfReflectionOutcomeAt | src/main.py:68-149 | the first provider whose pass raises, after providers whose requests all returned, decides the outcome |
| Workflows.Experiment.AgentsPlannerPromptIsTemplate | src/main.py:164-166 | the multiagent planner is given `PlannerPrompt()` without the map, so its system message is the bare template |
| Workflows.Experiment.AgentsRoundsTranscript | src/main.py:162-239 | after n queries each agent's history is its system prompt plus, per query, the user message and its own answer (1 + 2n messages), and each answer is the reply to the history up to that round |
| Workflows.Experiment.TurnAppends | src/main.py:185-239 | a round appends exactly a user message and the answer to each of the three histories |
| Workflows.Experiment.AgentsRoundsAbortKept | src/main.py:181-239 | a raise in some round ends the provider's run with that exception |
| Workflows.Experiment.AgentAsk | src/main.py:185-204 | an agent's turn sends its whole history plus the new user message and keeps the answer as an assistant message |
| Workflows.Experiment.MultiagentQuery | src/main.py:181-250 | one query's round on the three persistent histories, its three replies saved in the query folder |
| Workflows.Experiment.MultiagentWith | src/main.py:158-250 | one provider's pass follows `AgentsRounds`: it completes exactly when the rounds do, and otherwise ends with their exception; the histories are never cleared and every query folder holds its round's replies |
| Workflows.Experiment.PlanMultiagentReflection | src/main.py:152-250 | `plan_multiagent_reflection` completes exactly when every provider's rounds complete; otherwise it ends with the exception of the first provider whose rounds raised, every earlier provider having completed; when it completes it has sent 3 × 4 × queries requests and written each provider's replies, only under its method folder |
| Workflows.Experiment.MultiagentProviders | src/main.py:158-250 | the provider loop stops at the first provider whose rounds raise, with that exception, and every provider before it has its replies saved |
| Workflows.Experiment.MultiagentProvider | src/main.py:158-250 | provider pi's pass completes exactly when its rounds do, and otherwise ends with their exception |
| Workflows.Experiment.PlanMultiagentOutcomeMeaning | src/main.py:152-250 | `plan_multiagent_reflection` completes exactly when every provider's rounds do, and otherwise ends with the first raising provider's exception |
| Workflows.Experiment.PlanMultiagentOutcomeAt | src/main.py:158-250 | the first provider whose rounds raise, after providers whose rounds completed, ends the run with that exception |
| Workflows.Experiment.QueryPlans | src/main.py:266-282 | the ensemble's plans are each provider's reply to the planner history, in provider order |
| Workflows.Experiment.QueryPlansErr | src/main.py:266-282 | the plans fail exactly when some provider raises, and then with the first raise |
| Workflows.Experiment.EnsemblePlans | src/main.py:266-293 | the provider loop sends `PlanCalls` and saves each plan as `plan_response_<provider>.json` |
| Workflows.Experiment.Choose | src/main.py:296-314 | the chooser is Gemini 1.5 Pro, its history is a single system message, and `choice.json` has no provider segment |
| Workflows.Experiment.ChooserSeesEveryPlan | src/main.py:259-300 | `plan_responses` is never reset, so the chooser of query q sees 4·(q+1) responses: every earlier plan, then query q's four |
| Workflows.Experiment.EnsembleRoundsAbortKept | src/main.py:261-314 | a raise in some query ends the ensemble with that exception |
| Workflows.Experiment.PlanEnsembling | src/main.py:253-314 | `plan_ensembling` sends five requests per query and writes four plan files and `choice.json` per query, only under `ensemble` |
| Workflows.Experiment.PlanMap | src/main.py:337-353 | one map ends as `MapOutcome`: a preprocessing error aborts with that error and changes nothing; otherwise the planner the method name selects runs on the dumped map, and an unmatched name completes without a request or a file |
| Workflows.Experiment.PlannerOutcomeMeaning | src/main.py:343-353 | each selected planner completes exactly when none of its requests raises; an unmatched method name always completes |
| Workflows.Experiment.RunMaps | src/main.py:317-353 | `main` runs the planner once per map and completes exactly when every map's preprocessing and planner complete; otherwise it ends as the first map that did not, every earlier map having completed; when it completes the request count is maps × the per-map count |
| Workflows.Experiment.MapsLoop | src/main.py:337-353 | the map loop ends with the first map that aborts, or completes after the last |
| Workflows.Experiment.MapStep | src/main.py:337-353 | map i ends as its `MapOutcome`; with an unmatched method name nothing changes |
| Workflows.Experiment.RunMapsOutcomeMeaning | src/main.py:337-353 | the map loop completes exactly when every map does, and otherwise ends as the first map that does not |
| Evaluate.LoadJson | src/evaluate.py:92-93 | a missing file is `FileNotFoundError`; a loaded value is the file's decoded content |
| Evaluate.Matching | src/evaluate.py:64-79 | every path `find_matching_files` returns is a file of the folder whose name matches, and the result is empty only when no listed file matches |
| Evaluate.IntOf | src/evaluate.py:75-76 | `int()` of a JSON integer is that integer; a string converts only when it parses |
| Evaluate.ChosenIndex | src/evaluate.py:74-76 | a choice without `chosen_response` raises `KeyError` |
| Evaluate.EnsemblePlanPath | src/evaluate.py:62-85 | the ensemble branch reads a `plan_..._<chosen>.json` file of the query folder |
| Evaluate.FinalPlanPath | src/evaluate.py:54-85 | `base` reads `final_plan.json`, the reflection methods read `plan_<iterations>.json`, and the ensemble reads the chosen plan |
| Evaluate.RelevantObjects | src/evaluate.py:95-106 | a response is accepted exactly when it is a dict whose `relevant_objects` is a list, and then that list is stored |
| Evaluate.CellResultAccepted | src/evaluate.py:45-106 | one entry loads exactly when its final plan exists and holds a list `relevant_objects` |
| Evaluate.MissingBasePlanSkipped | src/evaluate.py:87-89 | a missing `final_plan.json` is skipped with `ValueError` |
| Evaluate.EnsembleWithoutChoiceSkipped | src/evaluate.py:67-69 | no `choice_<n>.json` is a `ValueError` |
| Evaluate.EnsembleWithoutChosenPlanSkipped | src/evaluate.py:81-83 | no plan for the chosen index is a `ValueError` |
| Evaluate.Failures | src/evaluate.py:108-113 | the number of caught failures never exceeds the number of entries |
| Evaluate.FailuresCount | src/evaluate.py:108-113 | one caught failure anywhere makes the counter at least 1 |
| Evaluate.CellsOfCover | src/evaluate.py:40-44 | an entry exists exactly for every folder and query id |
| Evaluate.FoldersCover | src/evaluate.py:31-42 | the folders are exactly every mode × method × provider × map |
| Evaluate.AiCellsCover | src/evaluate.py:31-44 | every (mode, method, llm, map, query) combination gets exactly one entry |
| Evaluate.TotalResponses | src/evaluate.py:29 | with 10 maps and 30 queries there are `2 * 4 * 2 * 10 * 30` entries |
| Evaluate.FirstRaiseMeaning | src/evaluate.py:108 | the first entry whose exception is not caught, or none |
| Evaluate.LoadCells | src/evaluate.py:44-113 | the loop stops at the first uncaught exception; otherwise every entry holds its list or `[]`, and the counter is the number of failures |
| Evaluate.LoadAiResults | src/evaluate.py:26-119 | `load_ai_results` over every combination, with the same outcome as `LoadCells` |
| Evaluate.NotLoadedBound | src/evaluate.py:108-117 | `n_not_loaded_responses` is at most the number of entries |
| Evaluate.HumanResponses | src/evaluate.py:129-135 | a map's ground truth is its file's `"responses"` dict; a missing file or key is an error that is not caught |
| Evaluate.CopyResponses | src/evaluate.py:134-135 | the entries are copied unchanged |
| Evaluate.LoadHumanResults | src/evaluate.py:122-137 | every map gets its responses, or the call fails with a map's error |
| Annotate.StripShape | src/annotate.py:258-259 | a stripped string has no surrounding whitespace and only characters of the input |
| Annotate.Pieces | src/annotate.py:258-259 | every kept piece is stripped, non-empty and free of `,` |
| Annotate.ParseResponse | src/annotate.py:255-259 | every parsed item is non-empty, stripped and free of `,` |
| Annotate.BlankPiecesEmpty | src/annotate.py:255-256 | a blank string parses as `[]` |
| Annotate.ParseJoined | src/annotate.py:285-288 | re-parsing `", ".join(items)` gives back the items |
| Annotate.ReparseStored | src/annotate.py:255-288 | the stored string re-parses to the list that was parsed |
| Annotate.FirstRejectionMeaning | src/annotate.py:273-282 | the list passes exactly when no id repeats and all are known; otherwise the rejection names the first failing id, and the duplicate check comes first |
| Annotate.Validate | src/annotate.py:269-282 | the loop with `seen_ids` finds that first rejection |
| Annotate.IdSet | src/annotate.py:269-270 | the existing ids are exactly the ids of the semantic-map table |
| Annotate.ResponsesDataStep | src/annotate.py:323-332 | each row adds its query id with its parsed response |
| Annotate.ResponsesDataKeys | src/annotate.py:323-332 | the saved dict has a key for exactly the rows' query ids |
| Annotate.ResponsesDataLast | src/annotate.py:323-332 | a query id holds the parsed response of its last row |
| Annotate.Annotator.constructor | src/annotate.py:15-30 | the tool starts with nothing selected, no highlight and no file |
| Annotate.Annotator.Highlight | src/annotate.py:391-412 | exactly the map rows whose id is in the focused response are highlighted |
| Annotate.Annotator.AutoSave | src/annotate.py:320-336 | the responses file holds the parsed response of every row; other files are unchanged |
| Annotate.Annotator.SaveResponse | src/annotate.py:251-318 | a rejected list changes nothing; otherwise the cell stores the joined list, the highlights follow it, and the file is written unless no path was set or chosen |
| Annotate.Annotator.StoreResponse | src/annotate.py:284-295 | the cell stores `", ".join(list)`, the editor closes, and the highlights are redone |
| Annotate.Annotator.Persist | src/annotate.py:300-318 | with no path and no choice in the dialog nothing is saved; otherwise the chosen path is kept and written |
| Annotate.SavedResponseIsTyped | src/annotate.py:285-332 | after a save the file holds the list that was typed |
| Annotate.SplitDigits | src/annotate.py:135 | `re.split(r'(\d+)')` alternates non-digit runs with digit runs, starting and ending with a non-digit run |
| Annotate.SplitDigitsConcat | src/annotate.py:135 | the pieces concatenate back to the id |
| Annotate.NaturalSortKey | src/annotate.py:133-135 | the key has one part per piece of the split |
| Annotate.NaturalSortKeyShape | src/annotate.py:133-135 | the key alternates text and numbers, starting with text |
| Annotate.NaturalSortKeyOfRuns | src/annotate.py:135 | text runs are lower-cased, and digit runs become their integer value |
| TableWorkflowsGeneralComparison.QueryTypeOfNumber | src/results/table_workflows_general_comparison.py:116-123 | 1–10 is Descriptive, 11–20 Affordance, 21–30 Negation, anything else Unknown |
| TableWorkflowsGeneralComparison.MapSemanticMapToDataset | src/results/table_workflows_general_comparison.py:82-91 | prefix `scannet_` gives scannet, `scenenn_` gives scenenn, anything else unknown |
| TableWorkflowsGeneralComparison.MapQueryIdToQueryType | src/results/table_workflows_general_comparison.py:101-113 | `"Average"` maps to `"Average"`; a non-integer last segment gives `"Unknown"` |
| TableWorkflowsGeneralComparison.QueryTypeOfNumberedId | src/results/table_workflows_general_comparison.py:109-123 | an id ending in `_n` gets the bucket of n |
| TableWorkflowsGeneralComparison.QueryTypeOfPlainId | src/results/table_workflows_general_comparison.py:111 | an id without `_` uses the whole id as its number |
| Table1.MapDataset | src/results/table_1.py:44-49 | `map_dataset` requires the narrower prefix `scannet_scene`; `scenenn_` gives scenenn; anything else unknown |
| Table1.MapQueryType | src/results/table_1.py:51-62 | a non-integer last segment raises `ValueError`, because nothing catches it |
| Table1.DatasetNarrowerThanGeneral | src/results/table_1.py:45-46 | the two dataset mappers differ on a name like `scannet_x` |
| Table1.QueryTypeAgreesWithGeneral | src/results/table_1.py:51-62 | where `map_query_type` succeeds it uses the same buckets as the general table; on `"Average"` it raises |
| Constants.ProviderNameFromConstant | src/constants.py:41-47 | `g10p` and `g15p` map to the Gemini names; any other constant raises `ValueError` |
| Constants.PrettyMetricConstant | src/constants.py:56-64 | `top_1`, `top_2`, `top_3` and `top_any` display as `Top-1`, `Top-2`, `Top-3` and `Top-Any`; any other metric falls through to `None` |
| Constants.ProviderNameInjective | src/constants.py:41-47 | distinct known constants give distinct names |
| Constants.PrettyMetricInjective | src/constants.py:56-64 | distinct metrics get distinct display names |
| Constants.MethodsDistinct | src/constants.py:30-35 | `METHODS` lists four distinct names |

## Left out

- The Tk widgets, dialogs and message boxes of `annotate.py`. The table contents, the focus, the highlights, the open editor and the files written are the state of `Annotate.Annotator`. The save dialog is the parameter `dialog`.
- Loading a semantic map or queries file in the annotation tool, and the "most probable" score it shows: file I/O and float arithmetic.
- `reduce_float_precision`: float rounding. It is the function `roundFloats`, applied before any filtering.
- The LLM SDK clients and `generate_text`. Both are the oracle `reply`.
- `json.loads`, `json.dumps` and `json.load`: the predicate `parses` and the functions `dumps` and `decode`. The `indent` and `ensure_ascii` layout is not modelled.
- `file_utils`, `load_semantic_maps_basenames` and `load_queries_ids`. These are filesystem I/O; their results are parameters.
- `Strings`: digits are ASCII only (`str.isdigit`, `\d` and `int()` accept other Unicode digits); `int()` does not accept `_` digit separators or non-ASCII digits; `lower()` folds only the ASCII letters A–Z, while Python folds every Unicode letter. White space is Python's full `str.isspace` set.
- `Evaluate.LoadAiResults`: the nested `data[mode][method][llm][map][query]` dict is a map keyed by the whole combination. The five nested loops are one loop over the combinations, in the same order.
- `Workflows.Experiment.RunMaps`: the map folder listing, the query file and argument parsing are parameters.
- `plan_base` prints the history length, and `plan_ensembling` prints the chooser history. Console output is not modelled.
- `main.py` imports `PlannerPrompt`, `SelfReflectionSystemPrompt`, `SelfReflectionUserPrompt`, `CorrectionSystemPrompt` and `CorrectionUserPrompt`. The prompt modules shown define other class names. The model treats each as a prompt with an opaque `SYSTEM_PROMPT` (`templates`) and the keyword data `main.py` passes.
- `main.py` and `evaluate.py` use `constants.METHOD_ENSEMBLING`, but `constants.py` defines only `METHOD_ENSEMBLE`, so the code as written would raise `AttributeError`. The model reads the name as `METHOD_ENSEMBLE` (`"ensemble"`).
- The files `main.py` writes are not the ones `evaluate.py` reads:
  - `main.py` writes `first_plan.json`, `final_plan.json` and `choice.json`, and names query folders by `str(query_idx)`;
  - `evaluate.py` reads `plan_<n>.json`, `choice_<n>.json` and `plan_..._<k>.json`, and names query folders by query id;
  - the ensemble folder of `main.py` has no provider segment; the one of `evaluate.py` does.

  Each side is modelled as written.
- `Annotate.NaturalSortKey`: the key is modelled; sorting the object ids by it is not. Python's ordering of mixed `int`/`str` lists is not modelled. The text runs are lower-cased with ASCII folding only, so ids with non-ASCII capitals get a different key than Python's `lower()` gives.
- `compare_human_ai_results` is a stub in the source and is not modelled.
- The pandas pipelines of the two table generators (grouping, merging, rates, formatting) are not modelled; only their label mappers are.
- `ConversationHistory.History.ChatGptHistory`: Python returns the list object itself, so a caller could mutate the history through it. The model returns the value; that aliasing is not modelled.
- `LargeLanguageModel.GenerateJson`: the logger calls are not modelled. The `Tuple[str, float]` annotation and the docstring at src/llm/large_language_model.py:74-86 are out of date: the function returns only the JSON string, as the model does.
