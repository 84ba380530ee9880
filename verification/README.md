# Vertex AI / Dify integration with Hebrew support — a Dafny model

This project models the decision and string logic of four Python files of
the `dify-gcp-hebrew` repository:

- **VertexAIProvider** (`vertex_ai_provider.py`). It covers the Hebrew-block test and the Hebrew prompt shaping. It also covers the pure parts of response generation: model lookup, the output-token clamp, the word-count token estimate and the conversion of errors into result dictionaries. Configuration validation and the Hebrew capability test are modelled too.
- **DifyVertexAIIntegration** (`dify_vertex_ai_integration.py`). It covers the model configuration, the model schemas and the message-to-prompt serialiser. It also covers response generation with usage accounting, and provider initialisation from a credentials dictionary.
- **MultiAgentOrchestrator** (`agents_orchestrator.py`). It covers the shared agent state and the four agents' step logic. Each step takes the LLM reply as an input. The router and the run loop are modelled as well.
- **validate_implementation.py**. It covers the five self-checks, the integer score, the READY / NEEDS_WORK / INCOMPLETE verdict and the exit code.

Foreign calls become inputs:

- The Gemini call is a function `backend: Request -> Reply`. It sees the exact request the provider builds: model id, shaped prompt and clamped token limit.
- The outcomes of the credential-file write, the SDK set-up and the model-service client are a `Cloud` record.
- Each LLM call of the orchestrator is one element of a sequence of outcomes. An outcome is the reply text with the result of `json.loads`, or the exception raised.
- The file system is a map from the names of existing files to their text and size.
- `re.search` is an oracle `(pattern, text, ignoreCase) -> bool`.

Python dictionaries whose order the code iterates are association lists (`Tables`). A dictionary key that may be missing or hold `None` is a `Field` (`Missing | Null | Given(v)`), because `d.get(k, default)` only falls back to the default when the key is missing.

Modules:

- `Wrappers`: `Option`, `Result`, `Field`.
- `Text`: Hebrew test, Python `str.split()`, `join`, and the `in` test on strings.
- `Tables`: ordered dictionaries.
- `VertexProvider`, `DifyIntegration`, `Agents`, `Validation`: one module per source file.

## Model

| member | source | states |
|---|---|---|
| Text.ContainsHebrew | vertex_ai_provider.py:201-203 | true exactly when some character of the text lies in U+0590..U+05FF; false for the empty text |
| Text.SplitWords | vertex_ai_provider.py:152 | `str.split()` returns non-empty, whitespace-free words whose concatenation is exactly the non-whitespace characters of the text, in order |
| Text.SplitCountsWordStarts | vertex_ai_provider.py:152 | the number of words `split()` returns equals the number of word starts (a non-space character after whitespace or at the beginning) |
| Text.JoinAppend | dify_vertex_ai_integration.py:330 | joining a concatenated list is joining the two joins with one separator, or the non-empty one alone |
| Text.Contains | validate_implementation.py:66-81 | `needle in hay` holds exactly when the needle occurs at some index of the hay (the empty needle always does) |
| Tables.Keys | vertex_ai_provider.py:116 | the key list has one entry per dictionary entry, in insertion order |
| Tables.Lookup | vertex_ai_provider.py:115-118 | a lookup fails exactly when the key is not among the keys, and otherwise returns a value stored under that key |
| VertexProvider.InstructionsAreHebrew | vertex_ai_provider.py:80-82 | the instruction block begins with a Hebrew letter, so it contains Hebrew |
| VertexProvider.PrepareHebrewPrompt | vertex_ai_provider.py:70-91 | the result has length prompt + instructions + 2 and always contains Hebrew; a Hebrew prompt ends the result after the leading instructions; any other prompt begins it, followed by a blank line ("\n\n") and then the instructions |
| VertexProvider.PrepareHebrewPromptRoundTrip | vertex_ai_provider.py:84-91 | the instructions lead the result exactly when the prompt held Hebrew, and removing the block from that end gives back the original prompt |
| VertexProvider.BuildRequest | vertex_ai_provider.py:118-136 | the request uses the entry's model id; its token limit is the smaller of the requested and the model's maximum; the prompt is shaped exactly when Hebrew is enabled and otherwise passed unchanged; top_p 0.95 and top_k 40 |
| VertexProvider.GenerateResponse | vertex_ai_provider.py:114-169 | never raises. An unknown model gives success=false with the "not available" message listing the keys. Otherwise it succeeds exactly when the backend replies, echoing the model name, the entry's model id and Hebrew flag, the backend's text, a word-count token estimate and the call's metadata. A raised exception becomes the error |
| VertexProvider.MaxOutputTokensCapped | vertex_ai_provider.py:47-62 | for every configured model the token limit sent never exceeds 8192 |
| VertexProvider.ValidateConfiguration | vertex_ai_provider.py:205-235 | success exactly when the client can be built, echoing project, location and the two model keys; otherwise the client error |
| VertexProvider.TestHebrewCapabilitiesAsWritten | vertex_ai_provider.py:171-199 | as written, the test raises ("'NoneType' object is not iterable") exactly when some model's generation fails; when none fails it returns exactly the corrected test's per-model entries |
| VertexProvider.TestHebrewCapabilitiesAsWrittenRaises | vertex_ai_provider.py:192-195 | with an SDK that always raises, the test as written raises "'NoneType' object is not iterable" |
| VertexProvider.TestHebrewCapabilities | vertex_ai_provider.py:171-199 | corrected test: one entry per model in table order, whose success flag, Hebrew flag, length and error come from that model's generation |
| DifyIntegration.ParameterRules | dify_vertex_ai_integration.py:227-244 | one rule per configured parameter, in order, with name, template, type and default copied and min/max present exactly when configured |
| DifyIntegration.GetModelSchemas | dify_vertex_ai_integration.py:198-248 | one schema per configured model, in order, with model name, type, fixed features, fetch source, properties and parameter rules taken from that configuration |
| DifyIntegration.ShippedSchemas | dify_vertex_ai_integration.py:43-74 | the shipped configuration yields gemini-pro then gemini-flash; each is an LLM schema with four parameter rules, and every rule of both carries min and max |
| DifyIntegration.ConfiguredModelsAreAvailable | dify_vertex_ai_integration.py:272-289 | every model the adapter accepts is in the provider's table |
| DifyIntegration.PromptParts | dify_vertex_ai_integration.py:317-328 | at most one tagged part per message; every part starts with "System: ", "User: " or "Assistant: "; no parts exactly when no message has a recognised role |
| DifyIntegration.MessagesToPrompt | dify_vertex_ai_integration.py:307-330 | the prompt is empty exactly when no message has a system, user or assistant role (so an empty list gives "") |
| DifyIntegration.MessagesToPromptSingle | dify_vertex_ai_integration.py:319-328 | one message renders as "<Tag>: <content>", with a missing role read as user and missing content as ""; a message with another role renders as nothing |
| DifyIntegration.PromptPartsAppend | dify_vertex_ai_integration.py:319-329 | parts of concatenated message lists are the concatenated parts: order is kept and messages do not affect each other |
| DifyIntegration.MessagesToPromptAppend | dify_vertex_ai_integration.py:317-330 | serialising a concatenation joins the two serialisations with a blank line, or keeps the non-empty one |
| DifyIntegration.GenerateResponse | dify_vertex_ai_integration.py:250-305 | an uninitialised adapter and an unsupported model fail before any provider call. Otherwise it succeeds exactly when the provider does, and a provider failure becomes a raised error with its message. On success the role is assistant and the content is the backend's reply text. Prompt tokens are the prompt's word count, completion tokens the provider's estimate for the reply, and total their sum |
| DifyIntegration.GenerateFailureIsBackendError | dify_vertex_ai_integration.py:283-292 | for a configured model on an initialised adapter, a failure carries the message of the exception the SDK raised for the exact request built from the model's table entry, the serialised prompt, max_tokens (default 1024) and temperature (default 0.7), with Hebrew enabled |
| DifyIntegration.ClassifyKey | dify_vertex_ai_integration.py:94-104 | an empty or absent key is unused, a key starting with "{" is inline JSON, any other key is a file path |
| DifyIntegration.InitializeProvider | dify_vertex_ai_integration.py:76-123 | never raises. A missing, None or empty project id, a failed temp-file write or a failed SDK set-up returns false and leaves the adapter unchanged. It returns true exactly when every step succeeds. When the project id is set, the key gives a path and the SDK set-up succeeds, the adapter's provider is replaced by one with the project id, the location (default us-east1) and the key path, even when validation then fails |
| Agents.AgentNamed | agents_orchestrator.py:38-43 | a name resolves to an agent exactly when it is that agent's registered name |
| Agents.Step | agents_orchestrator.py:65-204 | every step appends exactly one AI message with the reply. Only a planner success sets current_task, to the reply's "instructions" (default ""). completed_tasks is returned exactly on a non-planner success: the current task, or "review" for the reviewer. An unusable reply routes to the agent's fallback with the context unchanged. A success stores the reply's "plan" (default []) under "plan" for the planner and the whole reply under "research", "code" or "review" otherwise, keeping every other key. Its next_agent is the reply's, defaulting to researcher, coder, reviewer and planner in turn; an approving review routes to END |
| Agents.UsableReplyRoutesAsNamed | agents_orchestrator.py:72-224 | a usable reply that is not an approving review sends the run to the agent its next_agent names, and ends it for any other name |
| Agents.RouteNext | agents_orchestrator.py:220-224 | routes to an agent exactly when next_agent is one of the four names, raises for an unhashable list or dictionary with Python's "unhashable type: 'list'" or "unhashable type: 'dict'", and otherwise ends |
| Agents.FallbackRoutesToSuccessor | agents_orchestrator.py:80-204 | an unusable reply moves planner to researcher, researcher to coder, coder to reviewer and reviewer to the end |
| Agents.ApprovedReviewEnds | agents_orchestrator.py:189-198 | a truthy "approved" ends the run whatever next_agent says |
| Agents.InitialState | agents_orchestrator.py:238-244 | the run starts with one human message, the input as current task, no completed tasks, an empty context and next_agent "planner" |
| Agents.StepKeepsWellformed | agents_orchestrator.py:75-204 | a step keeps the state well formed: the human message first, AI messages after, no more completed tasks than steps |
| Agents.RunFromKeepsWellformed | agents_orchestrator.py:208-234 | every state the loop stops in is well formed; an ended run added between one and |outcomes| AI messages, a run that used up its outcomes exactly |outcomes| |
| Agents.RunFromMessages | agents_orchestrator.py:72-234 | the messages of the state the loop stops in are the start's followed by the replies' AI messages in order: those of a non-empty prefix of the outcomes when the router ended the run, of all outcomes when they ran out |
| Agents.Run | agents_orchestrator.py:236-253 | never raises. It runs the workflow from the initial state at the planner: an exception becomes an error result with str(e) and exactly one AI message "שגיאה: <error>", and an ended workflow returns its final state. A completed run is well formed and its messages are the user's input followed by the replies of a non-empty prefix of the LLM outcomes |
| Agents.UnusableRepliesEndAfterReview | agents_orchestrator.py:80-224 | four unusable replies walk planner, researcher, coder and reviewer once and end the run with five messages, no completed tasks and an empty context |
| Validation.AllDeclared | validate_implementation.py:66-81 | true exactly when every required name appears after its keyword in the file text |
| Validation.ValidateFileStructure | validate_implementation.py:14-85 | passes exactly when every required file exists and contains each "class X" and "def X" it needs; the size warnings list exactly the present files below their minimum |
| Validation.SizesDoNotMatter | validate_implementation.py:53-59 | file sizes never decide the structure check |
| Validation.AllMatch | validate_implementation.py:126-135 | true exactly when every pattern matches the text |
| Validation.PatternCheck | validate_implementation.py:88-135 | the provider and integration checks pass exactly when the file exists and every listed pattern matches it |
| Validation.Matched | validate_implementation.py:209-219 | one entry per check whose pattern matches, so as many entries as matches; an entry is reported exactly when it is some matching check's description with the suffix |
| Validation.MatchedAppend | validate_implementation.py:217-219 | the entries of two check lists are those of the first list followed by those of the second, so the report keeps check order |
| Validation.MatchedNoDuplicates | validate_implementation.py:217-219 | checks with pairwise different descriptions never report an entry twice |
| Validation.MatchedReports | validate_implementation.py:217-219 | with pairwise different descriptions, a check's entry is reported exactly when its pattern matches |
| Validation.SourceHebrewFeatures | validate_implementation.py:196-220 | a source file adds one feature per Hebrew signal that holds, none when it is absent; "Hebrew text in <file>" exactly when the Hebrew-block pattern `[\u0590-\u05FF]+` matches the file, and each function's entry exactly when its name pattern matches |
| Validation.HebrewFeatures | validate_implementation.py:194-240 | the features are those of the two source files and of the setup guide's case-insensitive checks, one per signal that holds among the seventeen |
| Validation.HebrewSupportOk | validate_implementation.py:194-242 | passes exactly when at least eight of the seventeen Hebrew signals hold: Hebrew text and five function names in each source file, five documentation patterns in the guide |
| Validation.HebrewSupportNeedsTwoSources | validate_implementation.py:194-242 | with no setup guide and one source file missing, Hebrew support fails |
| Validation.ToSet | validate_implementation.py:290 | de-duplication keeps exactly the listed strings and never adds any |
| Validation.EnvVarChecks | validate_implementation.py:257-268 | one check per environment variable, in order, whose entry is "Environment variable " followed by that variable |
| Validation.ConfigChecks | validate_implementation.py:250-287 | one entry per configuration signal that holds (five variables in the compose file, four credential patterns in each source file), no entry twice, and an entry exactly when it is "Environment variable <pattern>" for a variable pattern matching the compose file or "<description> in <file>" for a credential pattern matching that source file |
| Validation.EnvEntriesMembers | validate_implementation.py:253-268 | the environment entries are exactly "Environment variable <pattern>" for the patterns that match the compose file, and none without it |
| Validation.CredentialEntriesMembers | validate_implementation.py:273-287 | a source file's credential entries are exactly "<description> in <file>" for its matching credential patterns, and none when the file is absent |
| Validation.ConfigurationOk | validate_implementation.py:250-296 | passes exactly when at least ten of the thirteen configuration signals hold, because the entries have no duplicates to remove |
| Validation.ConfigurationNeedsCompose | validate_implementation.py:252-296 | without docker-compose.dev.yaml the configuration check fails |
| Validation.CountTrue | validate_implementation.py:334 | the number of passed validations never exceeds the number run |
| Validation.CountTrueCountsIndices | validate_implementation.py:334 | the count is the number of positions holding true |
| Validation.CountTrueAppend | validate_implementation.py:334 | counting a concatenation adds the two counts |
| Validation.Score | validate_implementation.py:333-335 | the score is 20 per passed validation, so it lies in {0, 20, 40, 60, 80, 100} |
| Validation.StatusByPassed | validate_implementation.py:338 | READY exactly when at least four validations pass, NEEDS_WORK exactly when three do, INCOMPLETE at two or fewer |
| Validation.StatusMonotone | validate_implementation.py:338 | passing more validations never gives a worse verdict |
| Validation.VerdictsMean | validate_implementation.py:14-135 | the first verdict is the structure check, the next two pass exactly when the source file exists and every listed pattern matches it |
| Validation.VerdictsCount | validate_implementation.py:189-296 | the Hebrew verdict passes exactly when eight of its seventeen signals hold, the configuration verdict when ten of its thirteen do |
| Validation.GenerateValidationReport | validate_implementation.py:299-342 | each result is its check's verdict, stated in terms of files and pattern matches; the score is 20 per pass; the status follows the pass count |
| Validation.MainExitCode | validate_implementation.py:345-368 | exit code 0 exactly when at least four of the five validations pass (READY), 1 otherwise |

## Findings

| source | as written | input that shows it | evidently intended | confidence | as-written member | corrected member |
|---|---|---|---|---|---|---|
| vertex_ai_provider.py:192-195 | a failed generation returns `"response": None`. So `result.get("response", "")` yields `None`, and `_contains_hebrew(None)` raises `TypeError` | any model whose SDK call raises, e.g. a quota error for gemini-pro | record the failure as an entry with no Hebrew and length 0, and keep testing the other models | high, not executed | VertexProvider.TestHebrewCapabilitiesAsWritten (exhibited by VertexProvider.TestHebrewCapabilitiesAsWrittenRaises) | VertexProvider.TestHebrewCapabilities |

## Left out

- The Google Cloud SDK is not modelled: `vertexai.init`, `service_account.Credentials`, `GenerativeModel.generate_content` and the model-service client. Their outcomes are inputs (`backend`, `Cloud`).
- ChatAnthropic and the LangGraph graph are not modelled: `StateGraph`, `compile`, `invoke`. The run loop applies each update and follows `route_next` itself.
  - The graph maps the router's result through the path map `{name: name} | {"END": END}`. That map has no key for the END value the router returns, so the library may reject the route instead of ending the run. This library behaviour is not visible here and is not modelled: the model ends the run.
  - The library's recursion limit is not modelled. The length of the given LLM-outcome sequence bounds the loop instead. A run that uses them all up is `Unfinished`, which the source has no counterpart for.
- The prompts each agent sends to the LLM are not modelled, because the reply is an input whatever the prompt.
- `json.loads` is not modelled. Its result (a decoded value, or a failure) comes with each reply.
- Temperature and top_p are floats. They are carried as exact reals and only passed through.
- `Validation.Score`: models `(passed / 5) * 100` as the integer `20 * passed`. For five validations the float result is that exact integer.
- `get_provider_schema`, the localised labels and the `str.title()` casing of schema labels are left out. They are constant data.
- `get_available_models` and the `create_*` factories are left out. They return the table or a constructor call.
- `validate_credentials` is `InitializeProvider(...).ok`.
- `test_hebrew_integration` is left out. It only calls the capability test and one fixed `generate_response` (gemini-flash, one Hebrew question), both modelled above, and repackages their results.
- `setup_dify_vertex_ai_environment` is left out. It reads and writes `os.environ`.
- The `__main__` blocks, `main` in the orchestrator (with its `input()` prompt), all printing and logging, the temp-file write itself, and `os.listdir` in the report's implementation summary are left out.
- Non-string message content, non-string service-account keys and explicit `None` generation parameters are left out. Only text values or absent keys are modelled.
- An LLM reply whose content is not a string is left out.
- Regular-expression matching is an oracle. Python's `re` engine is not modelled.
- Sizes are given per file. The encoding that relates byte sizes to texts is not modelled.
