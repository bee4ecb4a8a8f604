# LLM-as-judge: verified model of the verdict pipeline and the model registry

This project models the core of "laaj", a service that takes two answers to a question, asks a judge model which one is better, and returns a verdict. The verdict is "A", "B", "Empate" (a tie) or an "ERRO - ..." message. Around that core sit:

- a model registry, loaded from a JSON configuration with a cache and a fallback;
- a factory of LLM clients;
- the request schemas of the comparison API;
- a story graph that names the better of two models;
- the integration helpers of the configuration package;
- the two-round judge-qualification contest.

Every model call, the clock, the timeout, the configuration file and JSON decoding are inputs to the model. They appear as a judge output, an elapsed time, a timed-out flag, a `ConfigFile` record and a `decode` function.

The project has one Dafny module per source file:

| module | source file | form |
|---|---|---|
| `JudgeResponse` | src/laaj/workflow/workflow_backup.py (parser) | datatypes and functions |
| `ComparisonWorkflow` | src/laaj/workflow/workflow_backup.py (node, batch, `main`) | functions; the batch loop as methods |
| `ModelsConfig` | src/laaj/config/models_loader.py | validators as predicates; the loader as a class with `cache` and `lastModified` |
| `LlmFactory` | src/laaj/agents/llm_factory.py | a class over the mutable name → creator table |
| `CompareSchemas` | src/laaj/api/schemas/compare.py | functions returning `Result` |
| `StoryGraph` | src/laaj/workflow/workflow.py | functions over the graph state |
| `ConfigIntegration` | src/laaj/config/\_\_init\_\_.py | functions over the loader's answer |
| `JudgeQualification` | tests/test_judge_models.py | functions; the round and consolidation loops as methods |
| `StaticConfig` | src/laaj/config/config.py | the `LITERAL_MODELS` constant |
| `PyValues` | (Python semantics) | JSON values as ordered association lists, `==` between numbers and bools, truthiness, `in`, `strip`, `lower`, `startswith`, `count`, `split`, `join` |

A Python dict is an ordered list of `(key, value)` pairs, and lookup takes the first matching pair, so insertion order is kept wherever the source lists keys. Python's `1 == True == 1.0` is modelled by `EqualsInt`. `strip` uses Python's whitespace set. `lower` folds ASCII letters only.

## Model

| member | source | states |
|---|---|---|
| JudgeResponse.WireErrorPrefix | src/laaj/workflow/workflow_backup.py:260-262 | a verdict's stored string starts with "ERRO" exactly when it is an error verdict (not for A, B, Empate or TIMEOUT) |
| JudgeResponse.ExtractFromJson | src/laaj/workflow/workflow_backup.py:41-54 | a structured answer is always a decision: Preference 1 gives A, 2 gives B, any other value a tie (each an iff); the reasoning is "Reasoning" when truthy, else "reasoning" |
| JudgeResponse.SearchFromFindsAnyMatch | src/laaj/workflow/workflow_backup.py:72-73 | the search finds a pattern exactly when some start index at or after the given one matches |
| JudgeResponse.FirstMatch | src/laaj/workflow/workflow_backup.py:72-75 | a verdict is returned iff some pattern occurs; it is the verdict of a pattern that occurs when no earlier pattern does |
| JudgeResponse.Excerpt | src/laaj/workflow/workflow_backup.py:61 | the reasoning is the whole text up to 500 characters, otherwise its first 500 characters followed by "..." |
| JudgeResponse.ExtractFromText | src/laaj/workflow/workflow_backup.py:56-86 | a text answer always yields a decision (A, B or tie), never an error, with the excerpt as reasoning |
| JudgeResponse.FirstPatternWins | src/laaj/workflow/workflow_backup.py:64-75 | patterns are tried in the fixed order on the lower-cased text and the first that occurs decides |
| JudgeResponse.MentionCountDecides | src/laaj/workflow/workflow_backup.py:77-86 | with no pattern present, more "assistant a" gives A, more "assistant b" gives B, and equal counts (0/0 included) a tie |
| JudgeResponse.OnlyOneSideMentioned | src/laaj/workflow/workflow_backup.py:77-86 | with no pattern, mentioning only A gives A, only B gives B, and neither gives a tie |
| JudgeResponse.TextVerdictIgnoresCase | src/laaj/workflow/workflow_backup.py:60 | lower-casing the text first does not change the verdict |
| JudgeResponse.WinnerALiteral | src/laaj/workflow/workflow_backup.py:65 | "winner: assistant a" standing as whole words anywhere in the text makes A the winner |
| JudgeResponse.ParseJudgeResponse | src/laaj/workflow/workflow_backup.py:99-146 | every parse ends in a decision or one of the parser's own error messages; raw output is never passed through |
| JudgeResponse.ParseDecidesExactly | src/laaj/workflow/workflow_backup.py:99-137 | a decision comes exactly from a dict with Preference, a non-empty string, or a ValueError/KeyError whose first argument holds the marker |
| JudgeResponse.MalformedInput | src/laaj/workflow/workflow_backup.py:114-119 | other input gives "ERRO - Resposta malformada do judge" with the response echoed in the reasoning |
| JudgeResponse.RecoveryReparsesEmbeddedText | src/laaj/workflow/workflow_backup.py:121-132 | the recovered text is what follows the first marker, stripped, and it is parsed as a text answer |
| ComparisonWorkflow.NodeJudge | src/laaj/workflow/workflow_backup.py:167-200 | a failing chain gives "Falha no parsing JSON" on ValueError and "Falha no modelo judge" otherwise, both errors; an answer gives exactly the parser's result; a decision only comes from an answer |
| ComparisonWorkflow.CountSucceeded | src/laaj/workflow/workflow_backup.py:260-262 | the success count never exceeds the number of results |
| ComparisonWorkflow.CountSucceededSnoc | src/laaj/workflow/workflow_backup.py:260-262 | appending a record adds one to the count exactly when its verdict does not start with "ERRO" |
| ComparisonWorkflow.CriticalResults | src/laaj/workflow/workflow_backup.py:284-302 | a batch-level failure yields one critical-failure record per comparison, in input order, none counted as a success |
| ComparisonWorkflow.BatchJudgeProcessing | src/laaj/workflow/workflow_backup.py:213-302 | the results are the batch specification and the count is the number of results not starting with "ERRO" |
| ComparisonWorkflow.ItemResults | src/laaj/workflow/workflow_backup.py:242-282 | one record per zipped pair, in order, and the count of records whose verdict does not start with "ERRO" |
| ComparisonWorkflow.Tally | src/laaj/workflow/workflow_backup.py:250-262 | one loop step appends the record and keeps the count equal to the successes so far |
| ComparisonWorkflow.BatchKeepsInputs | src/laaj/workflow/workflow_backup.py:245-300 | every result echoes the input, both responses and both model names of the comparison at its position; one result per comparison on failure |
| ComparisonWorkflow.ItemRecord | src/laaj/workflow/workflow_backup.py:246-279 | the record echoes the item's inputs whether or not it could be built; it carries the parsed verdict and reasoning iff the reasoning is a string or None, else the individual failure naming the rejected value |
| ComparisonWorkflow.CriticalBatchAllFail | src/laaj/workflow/workflow_backup.py:289-302 | every critical-failure verdict is "ERRO - Falha crítica no batch" and no success is counted |
| ComparisonWorkflow.NoneSucceed | src/laaj/workflow/workflow_backup.py:260-262 | a list of error verdicts counts no success |
| ComparisonWorkflow.ItemsAreIndependent | src/laaj/workflow/workflow_backup.py:245-279 | changing one item's judge output changes no other item's record |
| ComparisonWorkflow.ItemSucceededIffDecided | src/laaj/workflow/workflow_backup.py:246-279 | an item counts as a success iff its parse decided and its record could be built |
| ComparisonWorkflow.SuccessesAreDecisions | src/laaj/workflow/workflow_backup.py:243-262 | the success count equals the number of items decided by the judge |
| ComparisonWorkflow.Main | src/laaj/workflow/workflow_backup.py:330-405 | every outcome echoes the inputs and the model names and reports the elapsed time; "ERRO - Validação falhou" iff an input is blank; a timeout verdict iff valid input ran out of time |
| ComparisonWorkflow.ValidationRejectsBlank | src/laaj/workflow/workflow_backup.py:335-340 | validation fails iff some field is blank; it names response_a first, then response_b, then the question |
| ComparisonWorkflow.BlankInputRejected | src/laaj/workflow/workflow_backup.py:392-405 | a blank input gives "ERRO - Validação falhou" with the validation message, whatever the judge and the clock do, and echoes the inputs |
| ComparisonWorkflow.ValidInputJudged | src/laaj/workflow/workflow_backup.py:342-390 | valid input is judged on the stripped texts unless the limit is reached, which gives "TIMEOUT - Excedeu {n}s"; the inputs are echoed |
| ComparisonWorkflow.TimeoutWire | src/laaj/workflow/workflow_backup.py:387 | a timeout verdict reads "TIMEOUT - Excedeu ..." and does not start with "ERRO" |
| ComparisonWorkflow.WhitespaceInsensitive | src/laaj/workflow/workflow_backup.py:335-355 | surrounding whitespace on the inputs does not change the verdict |
| CompareSchemas.ValidateText | src/laaj/api/schemas/compare.py:10-28 | a text field is accepted iff it is not blank; the stored value is the stripped, non-empty text; "" fails min_length and a blank text the validator's message |
| CompareSchemas.ValidatedTextIsStable | src/laaj/api/schemas/compare.py:25-28 | a stored value has no surrounding whitespace and validates to itself |
| CompareSchemas.ValidateCompareRequest | src/laaj/api/schemas/compare.py:6-28 | a request is accepted iff none of the three texts is blank, and then holds the stripped texts and the optional fields unchanged |
| CompareSchemas.RequestErrorsNameFailingFields | src/laaj/api/schemas/compare.py:10-28 | each text field is reported, with its own error, exactly when it fails; the names are in strict declaration order (input, response_a, response_b), so none repeats; the list is empty iff no text is blank |
| CompareSchemas.SingleMessageUnreachable | src/laaj/api/schemas/compare.py:52-59 | as written, the single-comparison message is never produced and a one-item batch fails min_items |
| CompareSchemas.ValidateBatch | src/laaj/api/schemas/compare.py:52-59 | a batch is accepted iff it has 2 to 5 items, and exactly a one-item batch gets the redirect message |
| CompareSchemas.BatchRulesAgreeExceptSingle | src/laaj/api/schemas/compare.py:52-59 | the corrected and as-written rules accept the same batches and differ only on one item |
| CompareSchemas.ValidateExecutionTime | src/laaj/api/schemas/compare.py:47 | execution_time is accepted iff it is at least 0 |
| ModelsConfig.ModelEntries | src/laaj/config/models_loader.py:139-140 | a valid configuration has a non-empty models dict |
| ModelsConfig.DefaultModel | src/laaj/config/models_loader.py:143-145 | the default model of a valid configuration is one of its models |
| ModelsConfig.ValidConfig | src/laaj/config/models_loader.py:114-181 | a configuration that passes validation is a dict whose default model is the id of one of its models, with a non-empty providers dict |
| ModelsConfig.ValidConfigRequires | src/laaj/config/models_loader.py:114-181 | validation needs the four root fields, the three metadata fields, the default in models, and each model with its five fields, a bool is_default and a known status |
| ModelsConfig.BadModelInvalidates | src/laaj/config/models_loader.py:168-173 | one model that is not a dict, has an unknown status or a non-bool is_default invalidates the configuration |
| ModelsConfig.LoadResult | src/laaj/config/models_loader.py:183-209 | a load succeeds iff the file exists, decodes and validates, and then returns the decoded configuration |
| ModelsConfig.ModelEntryValid | src/laaj/config/models_loader.py:160-173 | an entry holding the five fields and a known status passes model validation |
| ModelsConfig.ConfigOfValid | src/laaj/config/models_loader.py:114-158 | a configuration assembled from valid parts passes validation and reads back its models and default |
| ModelsConfig.FallbackModelValid | src/laaj/config/models_loader.py:254-280 | each fallback model is valid and active; it has every ModelConfig field except test_results as written |
| ModelsConfig.FallbackProviderValid | src/laaj/config/models_loader.py:282-298 | each fallback provider has api_type and requires_key |
| ModelsConfig.FallbackModels | src/laaj/config/models_loader.py:253-281 | the three fallback models, in the source's order |
| ModelsConfig.FallbackModelsValid | src/laaj/config/models_loader.py:253-281 | all fallback models pass validation and are active |
| ModelsConfig.FallbackValid | src/laaj/config/models_loader.py:234-299 | the fallback passes the loader's own validation, with default "llama-4-maverick" among its models |
| ModelsConfig.FallbackMetadataValid | src/laaj/config/models_loader.py:241-251 | the fallback metadata has the three required fields |
| ModelsConfig.FallbackProvidersValid | src/laaj/config/models_loader.py:282-298 | the fallback has a non-empty providers dict of well-formed providers |
| ModelsConfig.GetConfigNeverEmpty | src/laaj/config/models_loader.py:221-232 | after get_config the cache is set and holds a valid configuration |
| ModelsConfig.FailedLoadKeepsCache | src/laaj/config/models_loader.py:225-230 | a failed load keeps the previous cache; the fallback is installed only when there is none |
| ModelsConfig.ReloadOnlyOnChange | src/laaj/config/models_loader.py:103-112 | after a successful load the cache holds the file's configuration and reloads iff the mtime changes |
| ModelsConfig.GetConfigIdempotent | src/laaj/config/models_loader.py:211-232 | a second get_config on the same file changes nothing |
| ModelsConfig.ModelsWithStatus | src/laaj/config/models_loader.py:312-318 | an id is listed iff some model with that id passes the status filter |
| ModelsConfig.FilterModels | src/laaj/config/models_loader.py:312-318 | the loop computes exactly the filtered list |
| ModelsConfig.ModelsWithStatusAppend | src/laaj/config/models_loader.py:312-318 | the ids of two runs of entries are the first run's followed by the second's: map order and multiplicity are kept |
| ModelsConfig.ModelsWithStatusSingle | src/laaj/config/models_loader.py:314-318 | one entry is listed once iff it passes the status filter |
| ModelsConfig.NoFilterListsAll | src/laaj/config/models_loader.py:314-316 | with no filter every id is listed, in map order |
| ModelsConfig.ModelsOfProvider | src/laaj/config/models_loader.py:382-389 | an id is listed iff some model with that id has the provider |
| ModelsConfig.ModelsOfProviderAppend | src/laaj/config/models_loader.py:382-389 | the provider's ids of two runs of entries are the first run's followed by the second's: map order and multiplicity are kept |
| ModelsConfig.LookupModel | src/laaj/config/models_loader.py:334-351 | the lookup says "not found" exactly for ids that are not models |
| ModelsConfig.AvailableIffPresentAndActive | src/laaj/config/models_loader.py:419-430 | a model is available iff it is present and listed as active |
| ModelsConfig.ShouldReload | src/laaj/config/models_loader.py:103-112 | reload whenever the cache is empty; never when the file is missing; otherwise iff the recorded mtime differs from the file's |
| ModelsConfig.HealthOf | src/laaj/config/models_loader.py:457-500 | "error" iff building the default model's ModelConfig raises, reporting neither file nor cache; otherwise the file's presence, the number of models, the number of active models, the default model, whether it is available, the number of providers and the mtime, with the cache active; healthy only with the file present and some model active |
| ModelsConfig.HealthyIff | src/laaj/config/models_loader.py:464-491 | healthy iff the file exists, some model is active and the default is active; degraded otherwise |
| ModelsConfig.AsWrittenFallbackHealthFails | src/laaj/config/models_loader.py:344-351 | with the fallback as written, building the default model's ModelConfig raises and the health check reports an error |
| ModelsConfig.FallbackDefaultLookup | src/laaj/config/models_loader.py:252-262 | the fallback's default model is its first entry |
| ModelsConfig.FallbackDefaultEntryFields | src/laaj/config/models_loader.py:254-262 | the default fallback entry is active and has exactly the ModelConfig fields iff test_results is present |
| ModelsConfig.FallbackHealthDegraded | src/laaj/config/models_loader.py:457-499 | with the corrected fallback and no file, health is degraded (not error), the default is valid and three models are active |
| ModelsConfig.AllActiveListed | src/laaj/config/models_loader.py:320-322 | when every model is active, the active list has them all |
| ModelsConfig.ModelsLoader.constructor | src/laaj/config/models_loader.py:76-82 | a new loader has no cache and no recorded mtime |
| ModelsConfig.ModelsLoader.LoadConfigFromFile | src/laaj/config/models_loader.py:183-209 | returns the load result and records the mtime only on success, leaving the cache alone |
| ModelsConfig.ModelsLoader.GetConfig | src/laaj/config/models_loader.py:211-232 | the new state follows the reload rule and the cached configuration is returned, valid |
| ModelsConfig.ModelsLoader.RefreshConfig | src/laaj/config/models_loader.py:442-455 | a forced reload that always answers True: a failed load with a cache leaves the state unchanged and still reports success |
| ModelsConfig.ModelsLoader.GetAvailableModels | src/laaj/config/models_loader.py:301-318 | returns the ids passing the status filter in the configuration just read |
| ModelsConfig.ModelsLoader.GetActiveModels | src/laaj/config/models_loader.py:320-322 | returns the ids whose status is "active" |
| ModelsConfig.ModelsLoader.GetModelsByProvider | src/laaj/config/models_loader.py:372-389 | returns the ids of the models that have the provider, in the configuration just read |
| ModelsConfig.ModelsLoader.GetModelConfig | src/laaj/config/models_loader.py:334-351 | returns not found, the entry, or the construction failure |
| ModelsConfig.ModelsLoader.IsModelAvailable | src/laaj/config/models_loader.py:419-430 | returns the availability of the id in the configuration just read |
| ModelsConfig.ModelsLoader.HealthCheck | src/laaj/config/models_loader.py:457-499 | returns the health report of the state after one get_config |
| LlmFactory.DefaultRegistryWellFormed | src/laaj/agents/llm_factory.py:50-68 | the table as defined lists six distinct names, which are exactly its keys |
| LlmFactory.Create | src/laaj/agents/llm_factory.py:88-106 | creation fails iff the name is not a key; otherwise it gives that name's creator; the error names the model and every registered name |
| LlmFactory.RegisterOnlyChangesName | src/laaj/agents/llm_factory.py:164-167 | registering makes the name supported with the given creator and leaves every other entry and the existing order unchanged |
| LlmFactory.RegisterIdempotent | src/laaj/agents/llm_factory.py:164-167 | registering the same entry twice equals registering it once |
| LlmFactory.ConfigModelsValidIff | src/laaj/agents/llm_factory.py:180-195 | the configuration is valid iff every LITERAL_MODELS entry is registered; extra factory models do not matter |
| LlmFactory.DefaultRegistryCoversConfig | src/laaj/agents/llm_factory.py:170-200 | the table as defined covers LITERAL_MODELS |
| LlmFactory.RegisterKeepsConfigValid | src/laaj/agents/llm_factory.py:164-195 | registering never breaks a valid configuration check |
| LlmFactory.Factory.constructor | src/laaj/agents/llm_factory.py:50-68 | the factory starts with the table as defined |
| LlmFactory.Factory.CreateLlm | src/laaj/agents/llm_factory.py:70-106 | returns the lookup-or-error of the current table |
| LlmFactory.Factory.GetAvailableModels | src/laaj/agents/llm_factory.py:108-126 | returns exactly the registered names, in order: a name is listed iff it can be created |
| LlmFactory.Factory.IsModelSupported | src/laaj/agents/llm_factory.py:128-145 | true iff creating the model would succeed |
| LlmFactory.Factory.RegisterModel | src/laaj/agents/llm_factory.py:147-168 | the table becomes the registration of the entry and stays well formed |
| LlmFactory.Factory.ValidateConfigModels | src/laaj/agents/llm_factory.py:170-200 | true iff every LITERAL_MODELS entry is registered |
| StoryGraph.NodeLlm | src/laaj/workflow/workflow.py:24-45 | a model is written back iff it is one of the two known names, with that model's story; otherwise the response is the not-found message |
| StoryGraph.NodeLlmA | src/laaj/workflow/workflow.py:24-45 | node A changes only response A, never the model names; response A is the story of model A when it is known, else the not-found message |
| StoryGraph.NodeLlmB | src/laaj/workflow/workflow.py:47-68 | node B changes only response B, never the model names; response B is the story of model B when it is known, else the not-found message |
| StoryGraph.AnswerNodesCommute | src/laaj/workflow/workflow.py:97-98 | the two answer nodes, started together, give the same state in either order |
| StoryGraph.JudgeMapsPreference | src/laaj/workflow/workflow.py:77-91 | for a dict, Preference 1 names model A, 2 model B, anything else "Empate"; without the key, the error text |
| StoryGraph.NodeJudge | src/laaj/workflow/workflow.py:71-91 | whenever the judge node returns, the winner it names is model A, model B, "Empate" or the missing-Preference error text |
| StoryGraph.JudgeOutcomes | src/laaj/workflow/workflow.py:77-78 | a string answer raises iff it contains "Preference"; a value that is not a dict, str or list raises |
| StoryGraph.Successors | src/laaj/workflow/workflow.py:97-101 | a node's successors are exactly the targets of its edges |
| StoryGraph.Predecessors | src/laaj/workflow/workflow.py:97-101 | a node's predecessors are exactly the sources of its edges |
| StoryGraph.GraphShape | src/laaj/workflow/workflow.py:97-101 | both answer nodes start from START, the judge waits for both and then ends, and every edge moves one step forward |
| StoryGraph.RunNamesWinner | src/laaj/workflow/workflow.py:93-103 | with two known models and Preference 1, a run answers both and names model A |
| ConfigIntegration.LiteralModelValues | src/laaj/config/config.py:13-16 | the static list, element by element |
| ConfigIntegration.ModelIds | src/laaj/config/__init__.py:41 | over a dict the comprehension succeeds only when the dict is empty; over a list it gives one id per element |
| ConfigIntegration.ListIds | src/laaj/config/__init__.py:41 | ids are produced iff every element is a dict holding "id"; then the i-th id is the "id" of the i-th element |
| ConfigIntegration.DictConfigFallsBack | src/laaj/config/__init__.py:38-45 | with the loader's dict-shaped models the static list is returned |
| ConfigIntegration.ListConfigGivesIds | src/laaj/config/__init__.py:38-45 | a list of model dicts gives one id per model, the i-th being the "id" of the i-th model; no configuration gives the static list |
| ConfigIntegration.ProvidersOfValidConfig | src/laaj/config/__init__.py:55-62 | a loaded configuration lists its provider keys, at least one |
| ConfigIntegration.DynamicModelsList | src/laaj/config/__init__.py:31-45 | no configuration gives the static list; any other answer comes from a configuration dict that has "models" |
| ConfigIntegration.AvailableProviders | src/laaj/config/__init__.py:48-62 | a configuration with a providers dict gives its keys; any answer other than ["openrouter"] comes from such a dict |
| ConfigIntegration.ProvidersFallback | src/laaj/config/__init__.py:55-62 | without a providers dict the answer is ["openrouter"] |
| ConfigIntegration.DynamicAvailable | src/laaj/config/__init__.py:72-76 | true only for a truthy configuration; for a dict, iff it is non-empty and has both keys |
| ConfigIntegration.ValidConfigIsDynamic | src/laaj/config/__init__.py:72-76 | a loaded configuration is dynamic |
| ConfigIntegration.SystemInfoOf | src/laaj/config/__init__.py:86-95 | dynamic_available is `is_dynamic_config_available`; "dynamic_json" iff dynamic, else "static_legacy"; fallback_active is its negation; last_update is the given last-update value iff dynamic, else None; the totals are the lengths of the model and provider lists |
| ConfigIntegration.SystemInfoOfValidConfig | src/laaj/config/__init__.py:86-95 | with a loaded configuration the report is dynamic yet counts the two static models |
| JudgeQualification.CreateLlmForModel | tests/test_judge_models.py:80-119 | a gateway client has reasoning enabled iff effort is "minimal", and effort is None iff the model is in the allow-list |
| JudgeQualification.RoutingPartition | tests/test_judge_models.py:100-119 | Mistral iff in the Mistral list, Anthropic iff in the Anthropic list, gateway otherwise |
| JudgeQualification.PrefixProviderFirstMatch | tests/test_judge_models.py:624-639 | the provider is that of the first matching prefix, and "unknown" when none matches |
| JudgeQualification.GetModelProvider | tests/test_judge_models.py:620-639 | the two Anthropic names are "anthropic"; every answer is one of the eight providers or "unknown" |
| JudgeQualification.RoutingMatchesProvider | tests/test_judge_models.py:620-639 | Mistral-routed names are provider "mistral", Anthropic-routed ones "anthropic", and gateway models without reasoning are Google or Qwen |
| JudgeQualification.IsValidJsonResponse | tests/test_judge_models.py:132-187 | valid iff the preference check passed, with vote 1 or 2, otherwise vote 0; above 5.0 s always too slow |
| JudgeQualification.BlockContentRejected | tests/test_judge_models.py:163-187 | a timely reply whose content is a list of blocks makes `json.loads` raise TypeError, caught by the outer handler: invalid, vote 0 |
| JudgeQualification.DictReplyVerdict | tests/test_judge_models.py:151-160 | a timely dict is valid iff Preference is 1, 2, "1" or "2", and its vote is the integer it stands for |
| JudgeQualification.TextReplyAsDecoded | tests/test_judge_models.py:161-184 | a non-dict reply is judged as the dict its text decodes to, and is invalid when it does not decode to a dict |
| JudgeQualification.TestSingleModel | tests/test_judge_models.py:189-252 | the result names the model; vote_for follows the vote; a success has a vote; a failure has preference 0 and no vote; a failed attempt fails; for a reply, success and preference are the validation's verdict and vote |
| JudgeQualification.RunRound | tests/test_judge_models.py:270-288 | one result per model, in order, each that model's single test |
| JudgeQualification.Successful | tests/test_judge_models.py:291 | keeps exactly the successful results |
| JudgeQualification.VotesFor | tests/test_judge_models.py:298-299 | keeps exactly the results voting for the side |
| JudgeQualification.ModelsOf | tests/test_judge_models.py:304 | the model names, position by position |
| JudgeQualification.MajorityApproval | tests/test_judge_models.py:302-314 | more A votes approves exactly the A voters, more B votes the B voters, a tie every successful model |
| JudgeQualification.Approved | tests/test_judge_models.py:302-314 | the approved models are no more than the successful ones |
| JudgeQualification.ApprovedEmptyIffNoneSucceeded | tests/test_judge_models.py:291-328 | no model is approved iff none succeeded |
| JudgeQualification.ApprovedVotedWithMajority | tests/test_judge_models.py:302-314 | with distinct names, an approved model succeeded and, when one side has a strict majority, voted with it |
| JudgeQualification.DetermineOverallVote | tests/test_judge_models.py:437-449 | None if round 1 failed; the round-1 vote if round 2 is absent or failed; the round-2 vote otherwise |
| JudgeQualification.CheckVoteConsistency | tests/test_judge_models.py:430-434 | consistent iff round 2 is present, both rounds succeeded and their votes are equal |
| JudgeQualification.ConsistentVoteIsOverall | tests/test_judge_models.py:430-449 | a consistent model's overall vote is the vote it cast in both rounds |
| JudgeQualification.Consolidate | tests/test_judge_models.py:376-416 | final_success iff round 1 succeeded and round 2 is present and succeeded, and then the overall vote is round 2's; the preference is round 1's; vote_consistency and overall_vote are the two helpers' answers |
| JudgeQualification.Round2DictLastWins | tests/test_judge_models.py:374 | the dict has a model iff some round-2 result names it, and then holds the last such result |
| JudgeQualification.ConsolidateResults | tests/test_judge_models.py:360-420 | one consolidated record per round-1 result, in order, each with its round-2 result |
| JudgeQualification.TwoRounds | tests/test_judge_models.py:254-357 | round 1 over every model, round 2 over the approved models only, then consolidation |
| JudgeQualification.RoundLookup | tests/test_judge_models.py:374-378 | a model's entry among a round's results is its own test result |
| JudgeQualification.TwoRoundsOutcome | tests/test_judge_models.py:254-357 | one record per model; a round-2 result iff approved; finalist iff it succeeded, was approved and succeeded again |
| JudgeQualification.FinalistsVotedWithMajority | tests/test_judge_models.py:302-411 | with distinct names, every finalist voted with the strict round-1 majority when there is one |
| PyValues.StripEmptyIffAllSpace | src/laaj/api/schemas/compare.py:26 | `v.strip()` is empty iff every character of v is whitespace |
| PyValues.StripIdempotent | src/laaj/api/schemas/compare.py:28 | stripping twice is stripping once |
| PyValues.LowerIdempotent | src/laaj/workflow/workflow_backup.py:60 | lower-casing twice is lower-casing once |
| PyValues.CountPositiveIffContains | src/laaj/workflow/workflow_backup.py:78-79 | `str.count` is positive iff the text contains the needle |
| PyValues.AfterFirst | src/laaj/workflow/workflow_backup.py:127 | `split(marker, 1)[1]` is the text after the first occurrence of the marker |
| PyValues.JoinContainsParts | src/laaj/agents/llm_factory.py:91-92 | the joined list contains every name it joins |

## Left out

- LLM calls, prompt fetching and client construction (ChatOpenAI, ChatAnthropic, ChatMistralAI, `chain.ainvoke`, `abatch`, `pull_prompt`) are foreign libraries. A judge call is an input: a JSON value, another object, or a raised exception.
- asyncio, `asyncio.timeout` and `time.time` are concurrency and a clock. They become a timed-out flag and an elapsed-time input. The parallel dispatch of `abatch` and the one-second pauses between requests are not modelled.
- File and OS access in the loader (`_get_config_path`, `open`, `json.load`, `stat().st_mtime`) is an input record: whether the file exists, its mtime, and what decoding produced.
- Floating-point work (`calculate_average_time`, `get_fastest_models`, `round`, the `:.1f`/`:.2f` formatting) is left out. Elapsed times are `real` inputs compared with 5.0.
- Python's `re` and Unicode `str.lower` are not modelled. The five patterns are a hand-written token matcher with word boundaries over ASCII word characters, and `lower` folds ASCII letters only.
- `get_default_model`, `get_config_metadata` and the module-level convenience functions of the loader are not modelled. They are one-line reads of `get_config` that state nothing beyond it.
- `get_provider_config` is not modelled. It builds `ProviderConfig(**provider_data)` (src/laaj/config/models_loader.py:370), which raises TypeError for a provider that validation accepts when that provider lacks `base_url` or has extra keys. Validation (lines 175-181) requires only `api_type` and `requires_key`.
- The loader's singleton `__new__` is not modelled. The model has one loader object.
- Log messages, `str()`/repr renderings and the text of validation messages that embed `str(e)` or float formatting are not modelled. Health and qualification messages are modelled by their kind.
- ModelsConfig.HealthOf: the error report keeps status, config_file_exists and cache_active, but not the `str(e)` text.
- ModelsConfig.ModelsLoader.GetConfig: with no configuration file the loader installs the corrected fallback, whose models carry an empty `test_results`. In the source the fallback lacks that field, so `is_model_available` raises TypeError and `health_check` returns "error" (first row of Findings).
- JudgeQualification.IsValidJsonResponse: the message string of the returned tuple is modelled by its kind (`Check`), not its text. The outer `except Exception` is modelled only for a reply whose content is a list of blocks, where `json.loads` raises TypeError (`Raised`). Other exceptions, from `str()` of an exotic reply for one, are not modelled.
- JudgeQualification.TestSingleModel: execution time, response preview and error text are not kept. A failed chain creation, an exception inside the test and a critical error caught by the round loop are all one `Failed` attempt.
- JudgeQualification.Consolidate: average_time and the consolidated message are left out (floats and text). The legacy duplicate fields equal the modelled ones.
- JudgeResponse.ParseJudgeResponse: the "Invalid json output:" recovery (src/laaj/workflow/workflow_backup.py:121-132) is modelled as the function's own behaviour for an exception raised inside its `try`. Neither caller reaches it with such an error: `node_judge` catches a ValueError from `ainvoke` at line 184 before parsing, and a failing `abatch` fails the whole batch.
- ComparisonWorkflow.Main: the outer "other exception" branch of `main` is not modelled, since nothing in the modelled body raises anything other than the validation ValueError and the timeout. The `or ""` on the three echoed texts (lines 397-399) is the identity on strings and is not written out. The outer `except` of `node_judge` is not modelled, since only reading the state could raise there. The clock is the `elapsed` parameter, so the model does not show that it is never negative.
- ComparisonWorkflow.ItemRecord: the record rejects a reasoning that is not a string or None, which stands for pydantic's validation error in BatchComparisonResult. The text of that error is not modelled: the reasoning `RecordRejected(v)` names the rejected value and stands for "Erro durante processamento da comparação: ValidationError - " followed by pydantic's message for it. The model also assumes the record can be built without `judge_model_used`. In the source that field is required (src/laaj/api/schemas/compare.py:69) and the batch never supplies it, so every record construction raises. That includes the two `except` paths (lines 271-279 and 292-300), so `batch_judge_processing` raises for every non-empty list of comparisons, unless `abatch` returns no outputs.
- CompareSchemas.ValidateCompareRequest: reports only the text-field errors. How pydantic combines them with errors from other fields is not modelled.
- StoryGraph.NodeLlm: the `Literal[LITERAL_MODELS]` annotation on the state is not enforced, as in Python at run time. The `return {}` after a built client is unreachable and not modelled. The graph invocation at module level is a side effect and is left out.
- ConfigIntegration.SystemInfoOf: the loader has no `get_last_update`, so the dynamic case raises AttributeError in the source. The model takes the last-update value as an input instead.
- The imports in src/laaj/config/__init__.py:15-22 ask config.py for six names, but config.py defines only `OPENROUTER_API` and `LITERAL_MODELS`. As written, importing `laaj.config` therefore raises ImportError, and none of its functions can run. The model assumes the imports resolve. It models only `LITERAL_MODELS`; the secrets are environment loading.
- Report generation (`generate_two_rounds_report`, `analyze_voting_results`, `get_model_display_name`) and `generate_models_config` print or write files and are not modelled.
- HTTP routers, deployment scripts, tracing setup and the smoke-test scripts are not part of this model.

## Findings

| source | as written | input that shows it | evidently intended | confidence | as-written member | corrected member |
|---|---|---|---|---|---|---|
| src/laaj/config/models_loader.py:253-281 | the fallback models have no `test_results`, so `ModelConfig(**model_data)` at line 351 raises TypeError, and `health_check` reports "error" | no configuration file: the first `get_config` installs the fallback, then `health_check()` | the fallback builds a ModelConfig for each model, and the health check reports "degraded" with a valid default model | not executed | ModelsConfig.AsWrittenFallbackHealthFails | ModelsConfig.FallbackHealthDegraded |
| src/laaj/api/schemas/compare.py:52-59 | `min_items=2` is checked before `validate_comparisons`, so the message for a one-item batch is never produced | a batch with exactly one comparison | a one-item batch is told to use the single-comparison endpoint | not executed | CompareSchemas.SingleMessageUnreachable | CompareSchemas.ValidateBatch |

The loader in the model installs the corrected fallback, which has an empty `test_results` in each model (`ModelsConfig.Fallback`).
