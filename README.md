# RAGAgentStudio core, modelled in Dafny

RAGAgentStudio turns an uploaded document and a set of instructions into a configured
retrieval agent. A request passes through these stages:

- a decision stage checks the instructions and detects the file type;
- a parse stage converts DOCX, TXT and JSON files to PDF;
- a RAG stage indexes the document in a Gemini file-search store and scores whether it is
  sufficient;
- a MindsDB stage assembles the agent configuration, an n8n flow and export formats;
- a fallback stage decides whether a process is stuck and proposes recovery steps.

Every stage is a `BaseAgent`: `run` validates first, executes only after validation
succeeds, and turns any exception into an error result. Stages are composed two ways:

- by an `AgentChain`, which replaces each stage's input with the previous stage's `data`;
- by a `Pipeline`, which merges each stage's `data` into one shared context dict.

The service layer drives a task record through decision, parsing, RAG extraction and agent
creation, and keeps the records in a registry keyed by task id.

The model has one module per core source file, plus two shared modules:

- `Values` holds Python values and insertion-ordered dicts;
- `Text` holds the string operations the code uses (`strip`, `lower`, `split`, `in`, `join`).

How each kind of code is modelled:

- Code that mutates objects is written as classes with `modifies` clauses:
  - the agent's counters and lists;
  - the chain's results;
  - the pipeline's shared context, which is the caller's own dict object;
  - both task records;
  - the registry.
- Every such class is proved against a specification function.
- Stage bodies are total functions. They return how the call ended (returned or raised) together
  with the log and error entries it recorded.
- Each loop of the source is a method whose postcondition ties it to a specification function:
  - the upload poll;
  - the keyword, capability and topic loops;
  - the suggestion list;
  - the PDF page layout of the three converters;
  - the preview reader.

External services become parameters of the model:

- Gemini, the connectivity probe, MindsDB and the file readers;
- the regular-expression engine, `json.dumps` and the clock.

Three defects listed under "## Findings" are modelled both ways. A boolean parameter selects the code as written (false) or corrected (true):

- `supplyFileType` for step 4 of the document service;
- `typesImported` for the RAG agent, including its stage value `RagAgent.RagStage`;
- `checkRegistration` for the MindsDB agent, including `MindsdbAgent.MindsdbStage`.

## Model

| member | source | states |
|---|---|---|
| BaseAgent.RunResult | src/agents/base_agent.py:99-138 | Validation answering False gives the "Input validation failed" error result. Validation answering True gives execute's result unchanged, or "Agent execution failed: " + the exception text when execute raises. |
| BaseAgent.RunIgnoresExecuteUnlessValid | src/agents/base_agent.py:109-120 | When validation does not return True, execute is never consulted: two agents with the same validation give the same result, and its status is "error". |
| BaseAgent.Agent.constructor | src/agents/base_agent.py:16-30 | The id is the requested one unless missing or empty, then a fresh one. Counters and lists start empty and `last_run` is None. |
| BaseAgent.Agent.Log | src/agents/base_agent.py:58-81 | Appends exactly one entry carrying the level, the message and `metadata or {}`. |
| BaseAgent.Agent.Error | src/agents/base_agent.py:83-97 | Appends exactly one error entry and exactly one ERROR-level log entry. |
| BaseAgent.Agent.Run | src/agents/base_agent.py:99-138 | Returns `RunResult`. A False validation adds one error entry and leaves the counter alone. A returned execute increments `execution_count` by one and sets `last_run`. An exception adds one error entry carrying its text and leaves the counter unchanged. |
| BaseAgent.Agent.GetStats | src/agents/base_agent.py:140-149 | Reports the counter, `last_run`, `total_errors = len(errors)` and `total_logs = len(logs)`. |
| BaseAgent.ChainContract | src/agents/base_agent.py:178-204 | Agent j runs on agent j-1's data, or on agent j-1's own input when that result has no "data" key. The first "error" result at index k stops the chain with k and its message after exactly k+1 runs. Otherwise every agent runs once and the final output is the last replacement. |
| BaseAgent.ChainIgnoresLaterAgents | src/agents/base_agent.py:180-194 | Agents after the failing one are never run: replacing them leaves the chain's outcome unchanged. |
| BaseAgent.EmptyChain | src/agents/base_agent.py:178-204 | An empty chain runs nothing and returns its initial input as the final output. |
| BaseAgent.AgentChain.constructor | src/agents/base_agent.py:155-166 | The chain id is the requested one or a fresh one; `results` starts empty. |
| BaseAgent.AgentChain.Execute | src/agents/base_agent.py:168-204 | `results` grows by exactly the results of this execution: k+1 when failing at k, `len(agents)` on success. The report is the chain specification's outcome. Agents after the failing one are unchanged. |
| BasicPipeline.DataUpdate | src/app/pipelines/basic_pipeline.py:52 | A missing "data" merges nothing and a dict merges its entries. A list merges its elements as key/value pairs, in order: a two-element list with a string key, a two-character string, or a two-key dict. An empty string merges nothing; a non-empty one raises the ValueError for element #0 of length 1. Any other value raises "'<type>' object is not iterable". |
| BasicPipeline.MergeCallsSpec | src/app/pipelines/basic_pipeline.py:52 | A sequence merges exactly when every element gives a pair, and then yields those pairs in order. Otherwise it raises the first failing element's error, after merging the pairs of the elements before it. |
| BasicPipeline.PipelineContract | src/app/pipelines/basic_pipeline.py:34-58 | Agent j runs on the initial context merged with the data of results 0..j-1. The first error stops the run with its index, the agent's class name and the message, and the failing data is not merged. Data that makes `update` raise ends the run with that exception, after its pairs before the failing element were merged. Otherwise every agent runs and every result's data is merged. |
| BasicPipeline.ContextAfterKeys | src/app/pipelines/basic_pipeline.py:52-58 | The context's keys are the initial keys united with every merged result's data keys. |
| BasicPipeline.ContextAfterStep | src/app/pipelines/basic_pipeline.py:52 | Merging one more result overwrites exactly the keys its data holds; every other key keeps its value or stays absent. |
| BasicPipeline.ContextAfterKeepsDict | src/app/pipelines/basic_pipeline.py:52 | Merging never creates a duplicate key. |
| BasicPipeline.Pipeline.constructor | src/app/pipelines/basic_pipeline.py:16-20 | The pipeline id is the requested one or a fresh one; the context starts as a new empty dict. |
| BasicPipeline.Pipeline.Execute | src/app/pipelines/basic_pipeline.py:22-58 | The context is the caller's dict object, updated in place to the specification's final context, including a partial merge when `update` raises. The report carries one of three things: the index, class name and message of a failure; success; or the raised exception's text. At most one run per agent happens, and every agent after the one where the run stops is left unchanged. |
| Values.UpdateGet | src/app/pipelines/basic_pipeline.py:52 | After `ctx.update(d)`, a key of `d` maps to its value in `d`; every other key keeps its value in `ctx`. |
| Values.Dict.UpdateWith | src/app/pipelines/basic_pipeline.py:52 | `dict.update` in place: the entries become the merge of the old entries with `d`. |
| TaskRecord.ProcessingPipeline.constructor | src/app/service/pipeline.py:11-19 | A new record has the given task id, step "upload", no config, and empty steps, logs and errors. |
| TaskRecord.ProcessingPipeline.AddLog | src/app/service/pipeline.py:21-30 | Exactly one entry is appended, with `metadata or {}`, and `updated_at` is set to the clock. Nothing else changes. |
| TaskRecord.ProcessingPipeline.AddError | src/app/service/pipeline.py:32-35 | The message is appended to `errors` and exactly one ERROR entry to `logs`. |
| TaskRecord.ProcessingPipeline.MarkStepComplete | src/app/service/pipeline.py:37-40 | The step is appended at the end; earlier entries are unchanged. |
| TaskRecord.ProcessingPipeline.GetProgress | src/app/service/pipeline.py:42-50 | `completed = len(steps_completed)`, `total = 5`, and `percentage × 5 = completed × 100`. |
| TaskRecord.Registry.constructor | src/app/service/pipeline.py:53 | The registry starts empty. |
| TaskRecord.Registry.Register | src/app/service/pipeline.py:53 | Storing a record under a task id replaces only that key. |
| TaskRecord.Registry.Lookup | src/app/service/pipeline.py:53 | A registered id finds its record; an unregistered id finds nothing. |
| TaskRecord.RegisterOtherUnchanged | src/app/service/pipeline.py:53 | Registering one id never changes what another id finds. |
| Models.ParseFileType | src/app/models.py:11-16 | Only the four exact lower-case names are file types, and each parses to itself. |
| Models.FileTypeRoundTrip | src/app/models.py:11-16 | Parsing a file type's name gives the type back. |
| Models.CheckInstructions | src/app/models.py:41-54 | Accepted instructions are the stripped text and are never empty; stripping removes every character `str.strip()` removes. A rejection is a single "instructions" error. |
| Models.InstructionsAccepted | src/app/models.py:41-54 | Instructions are accepted exactly when the raw text has 20 to 5000 characters and is not all whitespace. |
| Models.AcceptedInstructionsMayBeShort | src/app/models.py:41-54 | The length bound applies before stripping, so an accepted request can carry a single character. |
| Models.CheckFileUpload | src/app/models.py:39-54 | A request is built exactly when its instructions are accepted and its file type is one of the four. It holds the stripped instructions. |
| Models.CheckRagConfig | src/app/models.py:68-74 | A store name is required. Chunk size must be in [100,1000] (default 200) and overlap in [0,100] (default 20). The strategy must be one of the enum's values. |
| Models.CheckModelConfig | src/app/models.py:77-82 | `temperature` must be in [0.0, 2.0] (default 0.7), `top_k` in [1,50] (default 10) and `max_output_tokens` in [100,4096] (default 2048). The model name defaults to "gemini-2.5-flash". |
| Models.DefaultsAreValid | src/app/models.py:68-82 | With nothing given, the defaults satisfy every bound. |
| Models.CheckAgentConfig | src/app/models.py:85-102 | A rejection always names at least one field. |
| Models.AgentConfigAcceptedIff | src/app/models.py:85-102 | The constructor accepts exactly the arguments that meet every declared requirement, nested configurations included. |
| Models.AgentConfigChecked | src/app/models.py:85-102 | A built configuration satisfies every declared bound, with the score in [0,100] defaulting to 0. It carries the given name, instructions, file type and id. |
| Models.MissingFileTypeRejected | src/app/models.py:91 | Without `file_type` the constructor always fails with "field required" for that field. |
| Models.ProcessingPipeline.constructor | src/app/models.py:206-216 | Defaults: the given or a fresh task id, step "upload", no config, and empty lists. |
| Models.ProcessingPipeline.AddLog | src/app/models.py:218-226 | One entry tagged with the record's task id is appended, and `updated_at` is set. |
| Models.ProcessingPipeline.AddError | src/app/models.py:228-231 | `errors` grows by the message and `logs` by one ERROR entry. |
| Models.ProcessingPipeline.MarkStepComplete | src/app/models.py:233-236 | Only `steps_completed` grows, by the step at the end. |
| DocumentProcessing.FileTypeOfName | src/app/service/document_processing.py:38 | The type holds no '.'. |
| DocumentProcessing.FileTypeAfterLastDot | src/app/service/document_processing.py:38 | The type of a name ending in "." + a suffix without '.' is the lowercased suffix. A name without '.' is lowercased whole. |
| DocumentProcessing.Decision | src/app/service/document_processing.py:26-44 | Step 1 accepts exactly when the instructions have at least 20 characters after stripping every character `str.strip()` removes, the file exists and the type is one of the four. It then yields that type. |
| DocumentProcessing.RagStep | src/app/service/document_processing.py:63-142 | A failure importing the SDK or building the client ends the step before any log line. Otherwise extraction succeeds exactly when store creation, upload and analysis all succeed, and then yields the store's name. |
| DocumentProcessing.CallGemini | src/app/service/document_processing.py:71-126 | Appends exactly the Gemini calls' log lines and returns their outcome. The clock is set only when a line was written. The `while not operation.done` poll ends after the rounds the service answers and changes nothing. |
| DocumentProcessing.StepsDone | src/app/service/document_processing.py:43-177 | The completed steps are always a prefix of decision, parsing, rag_extraction, agent_creation. |
| DocumentProcessing.ErrorsOf | src/app/service/document_processing.py:25-188 | A run records at most one error, and none exactly when it completes. |
| DocumentProcessing.DecisionStep | src/app/service/document_processing.py:26-44 | Sets step "decision" and writes the start line. On acceptance it marks "decision" and logs the type; otherwise it records one error and marks nothing. `started_at` is left untouched. |
| DocumentProcessing.ParsingStep | src/app/service/document_processing.py:49-58 | Sets step "parsing", writes two lines for a file to convert and one for a PDF, and marks "parsing". `started_at` is left untouched. |
| DocumentProcessing.ExtractionStep | src/app/service/document_processing.py:63-142 | Sets step "rag_extraction" and writes exactly the step's log lines, with no "Creating" line when the import or client raises. It marks the step on success, and records one error when the key is missing or a service call fails. `started_at` is left untouched. |
| DocumentProcessing.CreationStep | src/app/service/document_processing.py:144-170 | Sets step "agent_creation". With `supplyFileType` false this is the code as written, and with true the corrected call that passes the detected type. A built configuration is stored and the step marked. A rejected one is recorded as the outer handler's "Unexpected error" with step "error". `started_at` is left untouched. |
| DocumentProcessing.RunAfterDecision | src/app/service/document_processing.py:49-177 | Steps 2 to 5 leave exactly the steps, errors, log entries and configuration of the path taken, as written or corrected by `supplyFileType`. `started_at` is left untouched. |
| DocumentProcessing.FinishRun | src/app/service/document_processing.py:144-188 | Once extraction returned a store, step 4, as written or corrected, leaves the record in the state its configuration check decides: complete with the configuration, or in error with the validation message. `started_at` is left untouched. |
| DocumentProcessing.ProcessDocumentPipeline | src/app/service/document_processing.py:15-188 | The record ends at the step reached, as written (`supplyFileType` false) or corrected. Exactly that path's steps, errors and log entries are appended, and its configuration is stored only on completion. `started_at` is left untouched. |
| DocumentProcessing.RejectedStops | src/app/service/document_processing.py:185-188 | A rejected configuration ends at "error" with decision, parsing and rag_extraction completed, and one "Unexpected error: " + validation message entry. |
| DocumentProcessing.ShortInstructionsStop | src/app/service/document_processing.py:30-32 | Stripped instructions under 20 characters stop the run, and only then, with no step completed. |
| DocumentProcessing.UnsupportedTypeStops | src/app/service/document_processing.py:38-41 | An unsupported type stops the run at "decision" with nothing completed. |
| DocumentProcessing.MissingKeyStopsAfterParsing | src/app/service/document_processing.py:64-69 | A missing API key stops at "rag_extraction" with exactly decision and parsing completed and one error. |
| DocumentProcessing.CompletedIff | src/app/service/document_processing.py:25-177 | Corrected (detected file type supplied): a run completes exactly when every check and service call succeeds and the agent name fits in 255 characters. |
| DocumentProcessing.CompletedFacts | src/app/service/document_processing.py:148-166 | Corrected (detected file type supplied): a completed run stores the id "agent_" + task id, the first 500 characters of the instructions and the detected file type. |
| DocumentProcessing.AsWrittenConfigAlwaysRejected | src/app/service/document_processing.py:148-166 | As written, the configuration is never built, because `file_type` is missing. |
| DocumentProcessing.CorrectedConfigAccepted | src/app/service/document_processing.py:148-166 | With the detected type supplied, the configuration is built exactly when the derived name fits in 255 characters. |
| DocumentProcessing.CorrectedConfigFields | src/app/service/document_processing.py:148-166 | A built configuration carries "agent_" + task id, the truncated instructions and the detected type. |
| DocumentProcessing.AsWrittenNeverCompletes | src/app/service/document_processing.py:145-188 | As written, no run completes. Every run that passes RAG extraction ends with the configuration rejected. |
| DocumentProcessing.AsWrittenEndsInError | src/app/service/document_processing.py:145-188 | As written, such a run ends at "error" with decision, parsing and rag_extraction completed. Its one error is the "Unexpected error" for the missing `file_type`. |
| DecisionAgent.TypeBySuffix | src/agents/decision_agent.py:159-180 | A suffix match gives one of pdf, docx, txt or json. |
| DecisionAgent.TypeByContentType | src/agents/decision_agent.py:182-192 | A content-type match gives one of pdf, docx, txt or json. |
| DecisionAgent.DetermineFileType | src/agents/decision_agent.py:148-194 | A returned type is a known type or "unknown". A path string is judged only by its suffix, and a value that is neither string nor uploaded file is "unknown". Detection raises "'NoneType' object has no attribute 'lower'" exactly for an uploaded file whose `filename` is None, or whose name has no known suffix and whose `content_type` is None. |
| DecisionAgent.NameBeforeContentType | src/agents/decision_agent.py:170-192 | An uploaded file's name suffix decides over its content type, which is then not read, even when it is None. |
| DecisionAgent.SuffixIgnoresCase | src/agents/decision_agent.py:159-172 | Suffixes are compared case-insensitively. |
| DecisionAgent.Routing | src/agents/decision_agent.py:75-128 | `instructions_valid` iff the stripped length is at least 20. `file_exists` iff a type was detected, i.e. file or file_path is truthy, and `file_type` is that type. `requires_conversion` iff a file exists with a type other than pdf. The next step is parse_to_pdf, extract_with_rag or request_more_info by the documented rule. |
| DecisionAgent.UnknownNeedsConversion | src/agents/decision_agent.py:99-113 | An unrecognised file still requires conversion. |
| DecisionAgent.MessageCount | src/agents/decision_agent.py:65-128 | Three messages without a file, four with one; the last names the outcome. |
| DecisionAgent.BuildDecisions | src/agents/decision_agent.py:62-128 | The field-by-field construction gives exactly the routing specification's decisions for the detected type, or the exception the detection raises. |
| DecisionAgent.Validate | src/agents/decision_agent.py:27-43 | True exactly when "instructions" is present. |
| DecisionAgent.Execute | src/agents/decision_agent.py:45-146 | Succeeds exactly for a dict whose instructions are a string or absent (read as "") and whose file type can be detected, carrying the decisions as data. Any other input becomes an error result with one error entry; a detection failure becomes the error result with its message. |
| DecisionAgent.MissingFileStillValid | src/agents/decision_agent.py:38-128 | A dict without a file passes validation and is routed to request_more_info. |
| DecisionAgent.SummaryParts | src/agents/decision_agent.py:206-212 | The summary has exactly five parts. |
| DecisionAgent.SummaryShape | src/agents/decision_agent.py:196-213 | The joined summary opens with the instructions verdict and ends with the next step. |
| DecisionAgent.SummaryText | src/agents/decision_agent.py:196-213 | The summary is the five parts, instructions verdict, file presence, upper-cased type or "Unknown", conversion and next step, joined with " | ". |
| FallbackAgent.IsProcessStuck | src/agents/fallback_agent.py:144-181 | Stuck only for a dict status with a readable `updated_at` and a numeric timeout (int or float), whose elapsed time exceeds that timeout, whose status is "processing" and whose errors are non-empty. |
| FallbackAgent.StuckIff | src/agents/fallback_agent.py:158-181 | For any dict whose `updated_at` is truthy and readable, with a numeric timeout and a sized `errors`: stuck iff elapsed > timeout, status == "processing" and errors are non-empty. One INFO line is logged. |
| FallbackAgent.MissingUpdatedAtNotStuck | src/agents/fallback_agent.py:158-163 | Without `updated_at` the process is never stuck and nothing is logged. |
| FallbackAgent.ErrorType | src/agents/fallback_agent.py:195-241 | The type is one of timeout, permission, resource, not_found or general. |
| FallbackAgent.AnalysisOf | src/agents/fallback_agent.py:183-249 | Severity is "high" exactly for timeout, permission and resource. |
| FallbackAgent.Classification | src/agents/fallback_agent.py:195-241 | The first matching test decides: "timeout", then "permission"/"denied", then "memory"/"limit" for resource, then "not found"/"404" for not_found. Each type holds exactly when its test is the first to match; general when none does. |
| FallbackAgent.KeywordsFound | src/agents/fallback_agent.py:243-247 | The keywords are exactly the list words occurring in the lowercased message, in list order. |
| FallbackAgent.AnalyzeError | src/agents/fallback_agent.py:183-253 | The keyword loop gives the analysis of a string message with one INFO line. A list message first logs its first 100 items, then fails at `.lower()`. Any other non-string fails at once. Both give the handler's two-key dict and a WARNING line. |
| FallbackAgent.BuildSearchQuery | src/agents/fallback_agent.py:361-375 | The query starts with "python " and is at most 107 characters. |
| FallbackAgent.CutPrefixShorter | src/agents/fallback_agent.py:370-373 | Cutting a prefix never lengthens the text. |
| FallbackAgent.CutPrefixNoMatch | src/agents/fallback_agent.py:370-373 | A first line starting with none of the prefixes is kept whole. |
| FallbackAgent.OnePrefixOnly | src/agents/fallback_agent.py:370-373 | At most one prefix is removed: "Error: error: x" becomes "error: x". |
| FallbackAgent.CutPrefixFirst | src/agents/fallback_agent.py:370-373 | The first matching prefix is cut and the rest stripped. |
| FallbackAgent.SearchQueryText | src/agents/fallback_agent.py:361-375 | The query is "python " + the first 100 characters of the first line when no prefix matches, and "python " + the stripped rest after the first matching prefix otherwise. |
| FallbackAgent.SearchSolutions | src/agents/fallback_agent.py:255-292 | A string message yields exactly one result; anything else yields none. |
| FallbackAgent.BaseSuggestions | src/agents/fallback_agent.py:305-345 | Every error type, unknown ones included, has exactly four fixed suggestions. |
| FallbackAgent.Suggestions | src/agents/fallback_agent.py:301-355 | The type's four suggestions come first. One "Found online solutions" item is appended iff there are search results. |
| FallbackAgent.GenerateSuggestions | src/agents/fallback_agent.py:294-359 | The extend/append construction gives exactly the suggestion specification. |
| FallbackAgent.Validate | src/agents/fallback_agent.py:32-51 | True exactly when both `process_status` and `error_message` are present. |
| FallbackAgent.Execute | src/agents/fallback_agent.py:53-142 | A dict input always succeeds with no error entry. Its data is the recovery for the message when the status is stuck, and the healthy report otherwise; the message says which. Any other input is the handler's error result with one error entry. |
| FallbackAgent.RecoveryOutcomes | src/agents/fallback_agent.py:78-124 | Stuck without search: not recovered, nothing attempted, no suggestions. Stuck with search: attempted and recovered, with five suggestions exactly for a string message. |
| RagAgent.DefaultChunkingAccepted | src/agents/rag_agent.py:155-161 | The default chunking of 200 tokens with 20 overlapping is one `RAGConfig` accepts. |
| RagAgent.PollLoop | src/agents/rag_agent.py:173-181 | The loop polls at most 60 times. It ends on done, on the 60th poll, or on a poll that raises. |
| RagAgent.PollLoopReaches | src/agents/rag_agent.py:177-181 | The loop stops at the first reading that is not "not done yet", with that many polls. |
| RagAgent.UploadOutcome | src/agents/rag_agent.py:142-198 | An upload succeeds only when a poll reported done. A missing store is returned as an error dict without polling. |
| RagAgent.UploadOutcomes | src/agents/rag_agent.py:173-191 | Done at poll j uploads after exactly j polls. A raising poll returns its text as an error. Never done times out after exactly 60 polls. |
| RagAgent.UploadToStore | src/agents/rag_agent.py:142-198 | The while loop gives exactly the specification's result, poll count and log entries. |
| RagAgent.Clamp | src/agents/rag_agent.py:353 | The score is in [0,100]. It is unchanged when already inside, 0 below and 100 above. |
| RagAgent.ScoreFrom | src/agents/rag_agent.py:349-362 | The score always lies in [0,100]. |
| RagAgent.ExtractScore | src/agents/rag_agent.py:338-362 | The score always lies in [0,100]. |
| RagAgent.FirstMatchFrom | src/agents/rag_agent.py:349-353 | The first pattern with a match decides, clamped. |
| RagAgent.NoMatchFrom | src/agents/rag_agent.py:355-362 | Without any match, the keyword score decides, clamped. |
| RagAgent.FirstPatternWins | src/agents/rag_agent.py:342-353 | The fixed patterns are tried in order and the first match wins. |
| RagAgent.KeywordFallback | src/agents/rag_agent.py:355-362 | The fallback is 30, 50 or 70: 70 iff only positive words occur, 30 iff only negative words occur. |
| RagAgent.TopicsSpec | src/agents/rag_agent.py:328-336 | At most five topics, in list order. A keyword is listed iff it occurs in the lowercased text, except that the sixth, "guideline", is cut when the five before it all occur. |
| RagAgent.ExtractTopics | src/agents/rag_agent.py:328-336 | The append loop and the cut give exactly the topic specification. |
| RagAgent.LanguageIff | src/agents/rag_agent.py:238 | The language is "he" iff the text contains the Hebrew stem. |
| RagAgent.MetadataOf | src/agents/rag_agent.py:200-251 | A failed call gives the handler's dict. A reply gives the reply's topics, its language, and its first 500 characters as the analysis. |
| RagAgent.MetadataDefaults | src/agents/rag_agent.py:318-326 | Without a match, 3 sections and 1000 words. |
| RagAgent.SufficiencyOf | src/agents/rag_agent.py:253-316 | The score is in [0,100] and `is_sufficient` iff score ≥ 60. A failed call gives score 0, not sufficient, and the exception text as the analysis. |
| RagAgent.Validate | src/agents/rag_agent.py:56-75 | True exactly when `file_path` and `file_name` are present. |
| RagAgent.ExecuteWith | src/agents/rag_agent.py:77-124 | Offline raises "No internet connection available." before anything is logged. With both fields, success iff the store is created. A success carries the message "Document extracted and indexed successfully" and the data of the created store and its extraction. An API error is re-raised with the "Gemini API is currently unavailable: " prefix. No error entry is recorded. |
| RagAgent.UploadOutcomeIgnored | src/agents/rag_agent.py:100-122 | The upload's outcome never reaches the result. |
| RagAgent.AsWrittenNothingExtracted | src/agents/rag_agent.py:216-228 | As written, neither prompt reaches Gemini: the metadata is the handler's dict and the score is 0. |
| RagAgent.CorrectedExtraction | src/agents/rag_agent.py:270-307 | With `types` imported, the score is read from Gemini's answer and sufficiency follows the threshold. |
| MindsdbAgent.Validate | src/agents/mindsdb_agent.py:30-60 | False exactly when a required field is missing. True exactly when all are present and the score is an int, bool or float. A score below 50 logs one warning but still returns True. |
| MindsdbAgent.MappedIn | src/agents/mindsdb_agent.py:330-333 | No more capabilities than map entries. |
| MindsdbAgent.MappedInSpec | src/agents/mindsdb_agent.py:330-333 | A mapped capability is listed iff its keyword occurs, in map order. |
| MindsdbAgent.CapabilityNamesDistinct | src/agents/mindsdb_agent.py:318-328 | The base and mapped capability names are pairwise different. |
| MindsdbAgent.CapabilitiesSpec | src/agents/mindsdb_agent.py:316-335 | Both base capabilities always appear. A mapped one appears iff its keyword occurs. No entry repeats. |
| MindsdbAgent.InferCapabilities | src/agents/mindsdb_agent.py:316-335 | The append loop gives exactly the capability specification. |
| MindsdbAgent.GenerateId | src/agents/mindsdb_agent.py:337-340 | The id is 1 to 8 decimal digits. |
| MindsdbAgent.CreateAgentConfig | src/agents/mindsdb_agent.py:139-181 | The builder fails only for non-string instructions, with the AttributeError of `.lower`. A built configuration has an id "agent_" + at most 8 digits, the given instructions and score, the inferred capabilities, and the default model config when none is given. |
| MindsdbAgent.ConfigSettingsAccepted | src/agents/mindsdb_agent.py:150-171 | The fixed chunking and model settings, temperature 0.7 included, satisfy `RAGConfig` and `ModelConfig`. |
| MindsdbAgent.Dumps | src/agents/mindsdb_agent.py:302-312 | `json.dumps` succeeds iff no value in the structure is unencodable. |
| MindsdbAgent.N8nFlow | src/agents/mindsdb_agent.py:183-254 | A model configuration without "temperature" raises that KeyError. |
| MindsdbAgent.Indent | src/agents/mindsdb_agent.py:353 | The indentation has two characters per level. |
| MindsdbAgent.IndentSpaces | src/agents/mindsdb_agent.py:353 | Every indentation character is a space. |
| MindsdbAgent.YamlEntries | src/agents/mindsdb_agent.py:349-364 | A non-empty dict's text starts at its indentation, and any text ends with a newline. |
| MindsdbAgent.YamlPair | src/agents/mindsdb_agent.py:351-363 | Each key's text starts at its indentation and ends with a newline. |
| MindsdbAgent.YamlItems | src/agents/mindsdb_agent.py:355-361 | A list's text is empty or ends with a newline. |
| MindsdbAgent.YamlConcat | src/agents/mindsdb_agent.py:349-364 | A dict's text is its entries' texts one after the other. |
| MindsdbAgent.YamlRules | src/agents/mindsdb_agent.py:349-366 | A scalar pair gives "key: value". A dict or list gives "key:" and recurses one level deeper. A scalar item gives "- item". An empty dict gives "". |
| MindsdbAgent.ExportFormats | src/agents/mindsdb_agent.py:292-314 | The exports have exactly the keys json, yaml and n8n, and are produced iff the documents are encodable. |
| MindsdbAgent.CreationOf | src/agents/mindsdb_agent.py:76-128 | The created configuration carries the input's score (0 when absent). |
| MindsdbAgent.CreatedFrom | src/agents/mindsdb_agent.py:82-111 | A created agent carries the configuration and flow that were built. Its registration flag is True as written, and MindsDB's answer when corrected. |
| MindsdbAgent.CreationSucceeds | src/agents/mindsdb_agent.py:82-128 | The creation succeeds exactly when the configuration, the flow and both JSON exports succeed. |
| MindsdbAgent.ExecuteWith | src/agents/mindsdb_agent.py:62-137 | Never raises. Success iff no error entry. For a dict input, success iff the creation run returns, and then the data is the created agent's result; otherwise it is the error result with the creation's message. A failure is an error result with data None and one "Agent creation failed: " entry. |
| MindsdbAgent.SuccessCarriesConfigId | src/agents/mindsdb_agent.py:117-128 | On success, `data.agent_id` is the configuration's id, which starts with "agent_". |
| MindsdbAgent.RegistrationNotFatal | src/agents/mindsdb_agent.py:103-111 | MindsDB's answer never decides whether the creation succeeds. |
| MindsdbAgent.AsWrittenAlwaysRegistered | src/agents/mindsdb_agent.py:104-108 | As written, every successful creation reports `mindsdb_registered` True. |
| MindsdbAgent.CorrectedRegistration | src/agents/mindsdb_agent.py:256-290 | Corrected, the flag is True exactly when MindsDB accepted the knowledge base. |
| MindsdbAgent.FlowFailureReported | src/agents/mindsdb_agent.py:99-137 | A flow that cannot be built ends the run with that exception's text. |
| MindsdbAgent.MissingTemperatureFails | src/agents/mindsdb_agent.py:216 | A given model configuration without "temperature" makes the run fail with "'temperature'". |
| ParseAgent.JoinPath | src/agents/parse_agent.py:178 | The output path starts with the temporary directory and ends with the file name. |
| ParseAgent.Chunks | src/agents/parse_agent.py:185-195 | Every page has 1 to n lines, every page but the last has exactly n, and the pages concatenate back to the lines. |
| ParseAgent.ChunksOfFull | src/agents/parse_agent.py:185-195 | Full pages followed by a short remainder are cut back into exactly those pages. |
| ParseAgent.Clip | src/agents/parse_agent.py:193 | Each line is cut to at most 100 characters and keeps its prefix. |
| ParseAgent.HasTextIff | src/agents/parse_agent.py:151 | A paragraph is drawn iff its stripped text is non-empty. |
| ParseAgent.DocxLines | src/agents/parse_agent.py:150-156 | There are no more lines than paragraphs, and each is at most 100 characters. |
| ParseAgent.DocxLinesSpec | src/agents/parse_agent.py:150-153 | Every non-blank paragraph's cut text is among the lines. There are no lines iff every paragraph is blank. |
| ParseAgent.DocxLinesInOrder | src/agents/parse_agent.py:150-153 | Line j is the cut text of the j-th paragraph with text, in paragraph order, and every paragraph with text gives a line. |
| ParseAgent.LayOutTxt | src/agents/parse_agent.py:167-204 | The `page_lines` counter loop writes exactly the 50-line pagination of the cut lines. |
| ParseAgent.LayOutDocx | src/agents/parse_agent.py:133-165 | The `y` loop writes exactly 36 non-blank paragraphs per page. |
| ParseAgent.LayOutJson | src/agents/parse_agent.py:206-239 | The `y` loop writes exactly 60 lines per page. |
| ParseAgent.TxtPagination | src/agents/parse_agent.py:183-195 | At least one page, none over 50 lines, every page but the last full, and the pages hold every cut line in order. |
| ParseAgent.ExtractPdfText | src/agents/parse_agent.py:241-261 | The accumulating loop gives the first min(2, pages) texts joined. A failure gives "Could not extract text preview" and a WARNING line. |
| ParseAgent.PreviewReadsTwoPages | src/agents/parse_agent.py:250-254 | The preview is empty, the first page, or the first two pages. |
| ParseAgent.Convert | src/agents/parse_agent.py:91-101 | A conversion returns the pages of the read content with two log lines, or raises with one error entry carrying the exception. A txt conversion succeeds iff the file can be read. |
| ParseAgent.Validate | src/agents/parse_agent.py:31-49 | True exactly when `file` and `file_type` are present. |
| ParseAgent.FileTypeOf | src/agents/parse_agent.py:69 | The type is lowercased, a missing type is "unknown", and a non-string type raises. |
| ParseAgent.ParseOf | src/agents/parse_agent.py:65-122 | The preview is at most 200 characters. Conversion happens iff the type is not pdf, and a pdf keeps `str(file)` as its path. An unsupported type raises "Unsupported file type: t". A convertible type succeeds iff its conversion succeeds. |
| ParseAgent.Execute | src/agents/parse_agent.py:51-131 | Never raises. Success iff no error entry. For a dict input, success iff parsing returns, and then the data is the parsed document; otherwise it is the error result with the parse's message. An error records "File parsing failed: " + message last. A non-dict input fails at `get`. |
| ParseAgent.MissingTypeUnsupported | src/agents/parse_agent.py:69-104 | A missing type is parsed as "unknown" and refused. |
| ParseAgent.ConversionFailureRecordedTwice | src/agents/parse_agent.py:124-131 | A failed txt conversion leaves two error entries: the converter's and the handler's. |

## Left out

- Only the logic of src/agents/agent_base.py is absent. The fallback, MindsDB and parse agents import their base class from it, and that file is not part of this model. They are modelled on the `BaseAgent` of src/agents/base_agent.py, whose `run` their callers use.
- The standard `logging` module and `notify_callback` are left out; only the agents' own `logs`/`errors` lists and the record's lists are modelled.
- Clocks, uuids and time-based ids are parameters (`now`, `freshId`, `millis`). ISO timestamp parsing is a parameter of the fallback agent.
- These calls are parameters that say what each answers:
  - Gemini (store creation, upload, polling, generation);
  - the connectivity probe;
  - the MindsDB POST;
  - python-docx, file reading, `json.load`/`json.dumps` text;
  - PyPDF2 page text and `os.path.getsize`.
- Failures to import or write with reportlab are not modelled.
- Regular-expression matching is a parameter giving the integer of the first match. Only pattern order, clamping and the keyword fallback are modelled.
- The `while not operation.done` loop of src/app/service/document_processing.py:101-103 is not spelled out as a loop: it changes no state, and it ends after the number of rounds the service's answer gives. An upload that never finishes, which hangs the source, is not modelled.
- The asyncio sleeps and the per-poll `operations.get` calls are left out.
- A float carries its printed text and its exact decimal value, and comparisons use that value. Binary rounding, such as 0.1 + 0.2 != 0.3, is not modelled.
- TaskRecord.ProcessingPipeline.GetProgress: the percentage is the exact value 20 × completed. Python's float division and multiplication can differ in the last place, e.g. 7/5*100.
- FallbackAgent.IsProcessStuck: elapsed time is a whole number of seconds, not a float.
- MindsdbAgent.InferCapabilities: returns the capabilities in insertion order. The source returns `list(set(...))`, whose order CPython does not fix; the membership and no-repeat properties are proved.
- RagAgent.ExecuteWith: the grounding sources of the sufficiency reply are not modelled. The unused `instructions` argument and the never-passed `chunking_config` are also left out.
- Exception texts are those of CPython 3.11. For example, slicing a dict raises "unhashable type: 'slice'" there, while later versions raise a KeyError.
- BasicPipeline.PairOf: a pair whose key is a number, bool, None, datetime or uploaded file raises "non-string key" in the model. Python would merge it, but the model's dict keys are strings.
- Text.Lower: maps ASCII letters only, so a non-ASCII capital is not lowered. The members that depend on it are DocumentProcessing.FileTypeOfName, DecisionAgent.DetermineFileType, FallbackAgent.AnalysisOf, Classification, KeywordsFound, CutPrefix and BuildSearchQuery, MindsdbAgent.Capabilities, RagAgent.ExtractScore, Topics and ExtractTopics, and ParseAgent.FileTypeOf.
- pydantic's message texts are modelled only as field name plus problem.
- Values.Str, Values.Repr: a datetime prints as its whole seconds, where Python prints `YYYY-MM-DD HH:MM:SS`, and `repr` of a string does not escape quotes inside it. Only log and summary texts built from arbitrary input values are affected.
- pydantic v1 semantics are assumed: a missing field is "field required" and `model_config` is an ordinary field. This is an observation, not executed: src/app/config.py:6 imports `pydantic_settings`, which belongs to pydantic v2. Under v2 `model_config` (src/app/models.py:94) is a reserved name and the missing-field text is "Field required".
- Concurrency is left out: the registry and records have a single writer, and tasks launched fire-and-forget are not modelled.
- The upload poll: the RAG agent's `execute` ignores the upload's outcome, so a timed-out upload still yields a successful extraction. The model follows the code.

## Findings

| source | as written | input that shows it | evidently intended | confidence | as-written member | corrected member |
|---|---|---|---|---|---|---|
| src/app/service/document_processing.py:148-166 | `AgentConfig(...)` is built without the required `file_type`, so pydantic raises. The outer handler then records "Unexpected error" with step "error". | Any request whose RAG extraction succeeds, e.g. "guide.pdf" with 20+ characters of instructions | The detected file type is passed and the run reaches "complete" | not executed | DocumentProcessing.AsWrittenNeverCompletes | DocumentProcessing.CompletedIff |
| src/agents/rag_agent.py:219-222 | `types.GenerateContentConfig` is used but `types` is never imported. The NameError is caught, so metadata extraction always fails and the sufficiency score is 0. | Any document whose store is created | `from google.genai import types`, so the score comes from Gemini's reply | not executed | RagAgent.AsWrittenNothingExtracted | RagAgent.CorrectedExtraction |
| src/agents/mindsdb_agent.py:104-108 | `mindsdb_registered` is set True whenever `_register_with_mindsdb` returns. That method catches every failure and returns False instead of raising. | MindsDB unreachable: the call returns False and the result claims registration | Use the returned boolean | not executed | MindsdbAgent.AsWrittenAlwaysRegistered | MindsdbAgent.CorrectedRegistration |
