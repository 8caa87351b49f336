/** The request and configuration schemas (`app/models.py`) with the bounds their fields
    declare, and the schema-level processing record. Construction of a schema object is a
    function from the given fields to either the object or the list of field errors, in
    field declaration order. */
module Models {
  import opened Values
  import opened Text

  /** Why a field was rejected. */
  datatype Problem =
    | FieldRequired
    | TooShort(minLength: nat)
    | TooLong(maxLength: nat)
    | BelowMinimum(lo: int)
    | AboveMaximum(hi: int)
    | BelowFloatMinimum(loText: string)
    | AboveFloatMaximum(hiText: string)
    | NotAMember
    | InstructionsEmpty

  datatype FieldError = FieldError(loc: string, problem: Problem)

  /** The message pydantic prints for a problem. */
  function Describe(p: Problem): string {
    match p
    case FieldRequired => "field required"
    case TooShort(n) => "ensure this value has at least " + NatToString(n) + " characters"
    case TooLong(n) => "ensure this value has at most " + NatToString(n) + " characters"
    case BelowMinimum(lo) => "ensure this value is greater than or equal to " + IntToString(lo)
    case AboveMaximum(hi) => "ensure this value is less than or equal to " + IntToString(hi)
    case BelowFloatMinimum(lo) => "ensure this value is greater than or equal to " + lo
    case AboveFloatMaximum(hi) => "ensure this value is less than or equal to " + hi
    case NotAMember => "value is not a valid enumeration member"
    case InstructionsEmpty => "Instructions cannot be empty"
  }

  datatype Checked<T> = Valid(value: T) | Invalid(errors: seq<FieldError>)

  // ---------------------------------------------------------------- enumerations

  datatype FileType = Pdf | Docx | Txt | Json

  function FileTypeName(t: FileType): string {
    match t
    case Pdf => "pdf"
    case Docx => "docx"
    case Txt => "txt"
    case Json => "json"
  }

  /** `FileTypeEnum(s)`: only the four exact lower-case values are members. */
  function ParseFileType(s: string): (r: Option<FileType>)
    ensures r.Some? <==> s in ["pdf", "docx", "txt", "json"]
    ensures r.Some? ==> FileTypeName(r.value) == s
  {
    if s == "pdf" then Some(Pdf)
    else if s == "docx" then Some(Docx)
    else if s == "txt" then Some(Txt)
    else if s == "json" then Some(Json)
    else None
  }

  lemma FileTypeRoundTrip(t: FileType)
    ensures ParseFileType(FileTypeName(t)) == Some(t)
  {
  }

  datatype ChunkingStrategy = Whitespace | Semantic | FixedSize

  function ParseChunkingStrategy(s: string): Option<ChunkingStrategy> {
    if s == "whitespace" then Some(Whitespace)
    else if s == "semantic" then Some(Semantic)
    else if s == "fixed_size" then Some(FixedSize)
    else None
  }

  datatype AgentStatus = Pending | Processing | Validating | Ready | Deployed | Error | Archived

  function ParseAgentStatus(s: string): Option<AgentStatus> {
    if s == "pending" then Some(Pending)
    else if s == "processing" then Some(Processing)
    else if s == "validating" then Some(Validating)
    else if s == "ready" then Some(Ready)
    else if s == "deployed" then Some(Deployed)
    else if s == "error" then Some(Error)
    else if s == "archived" then Some(Archived)
    else None
  }

  // ---------------------------------------------------------------- field checks

  function Required<T>(loc: string, x: Option<T>): (e: seq<FieldError>)
    ensures e == [] <==> x.Some?
  {
    if x.None? then [FieldError(loc, FieldRequired)] else []
  }

  function MaxLength(loc: string, x: Option<string>, n: nat): (e: seq<FieldError>)
    ensures e == [] <==> (x.Some? ==> |x.value| <= n)
  {
    if x.Some? && |x.value| > n then [FieldError(loc, TooLong(n))]
    else []
  }

  /** The same check on an optional float; the bounds come with their printed text. */
  function BetweenReal(loc: string, x: Option<real>, lo: real, loText: string, hi: real, hiText: string): (e: seq<FieldError>)
    ensures e == [] <==> (x.Some? ==> lo <= x.value <= hi)
  {
    if x.None? then []
    else if x.value < lo then [FieldError(loc, BelowFloatMinimum(loText))]
    else if x.value > hi then [FieldError(loc, AboveFloatMaximum(hiText))]
    else []
  }

  /** A `Field(ge=lo, le=hi)` check on an optional integer (absent means the default). */
  function Between(loc: string, x: Option<int>, lo: int, hi: int): (e: seq<FieldError>)
    ensures e == [] <==> (x.Some? ==> lo <= x.value <= hi)
  {
    if x.None? then []
    else if x.value < lo then [FieldError(loc, BelowMinimum(lo))]
    else if x.value > hi then [FieldError(loc, AboveMaximum(hi))]
    else []
  }

  function MemberOf<T>(loc: string, x: Option<string>, parse: string -> Option<T>): (e: seq<FieldError>)
    ensures e == [] <==> (x.Some? ==> parse(x.value).Some?)
  {
    if x.Some? && parse(x.value).None? then [FieldError(loc, NotAMember)] else []
  }

  // ---------------------------------------------------------------- FileUploadRequest

  datatype FileUploadRequest = FileUploadRequest(instructions: string, fileName: string, fileType: FileType)

  /** The `instructions` field: 20 to 5000 characters, then the validator rejects text that
      strips to nothing and keeps the stripped text. */
  function CheckInstructions(raw: string): (r: Checked<string>)
    ensures r.Valid? ==> r.value == Strip(raw) && r.value != []
    ensures r.Invalid? ==> |r.errors| == 1 && r.errors[0].loc == "instructions"
  {
    if |raw| < 20 then Invalid([FieldError("instructions", TooShort(20))])
    else if |raw| > 5000 then Invalid([FieldError("instructions", TooLong(5000))])
    else if Strip(raw) == [] then Invalid([FieldError("instructions", InstructionsEmpty)])
    else Valid(Strip(raw))
  }

  /** The instructions are accepted exactly when the raw text has 20 to 5000 characters and
      at least one of them is not whitespace. */
  lemma InstructionsAccepted(raw: string)
    ensures CheckInstructions(raw).Valid?
        <==> 20 <= |raw| <= 5000 && exists i :: 0 <= i < |raw| && !IsSpace(raw[i])
  {
    StripEmptyIff(raw);
  }

  /** The length bound applies before stripping, so an accepted request may carry
      instructions far shorter than 20 characters. */
  lemma AcceptedInstructionsMayBeShort()
    ensures var raw := "x" + "                   ";
      && |raw| == 20
      && CheckInstructions(raw) == Valid("x")
  {
    var raw := "x" + "                   ";
    assert TrimLeft(raw) == raw;
    TrimRightSpaces("x", "                   ");
  }

  function CheckFileUpload(instructions: string, fileName: string, fileType: string): (r: Checked<FileUploadRequest>)
    ensures r.Valid? <==> CheckInstructions(instructions).Valid? && ParseFileType(fileType).Some?
    ensures r.Valid? ==> r.value.instructions == Strip(instructions) && FileTypeName(r.value.fileType) == fileType
  {
    var ins := CheckInstructions(instructions);
    var ft := ParseFileType(fileType);
    var errors := (if ins.Invalid? then ins.errors else [])
                + (if ft.None? then [FieldError("file_type", NotAMember)] else []);
    if errors == [] then Valid(FileUploadRequest(ins.value, fileName, ft.value)) else Invalid(errors)
  }

  // ---------------------------------------------------------------- RAGConfig and ModelConfig

  datatype RagConfig = RagConfig(
    fileSearchStore: string, chunkingStrategy: ChunkingStrategy,
    maxTokensPerChunk: int, overlapTokens: int, embeddingModel: string)

  ghost predicate RagConfigValid(c: RagConfig) {
    100 <= c.maxTokensPerChunk <= 1000 && 0 <= c.overlapTokens <= 100
  }

  /** The fields a caller passes to `RAGConfig(...)`; None means "not given". */
  datatype RagConfigInput = RagConfigInput(
    fileSearchStore: Option<string>, chunkingStrategy: Option<string>,
    maxTokensPerChunk: Option<int>, overlapTokens: Option<int>, embeddingModel: Option<string>)

  function RagConfigErrors(i: RagConfigInput, prefix: string): seq<FieldError> {
    Required(prefix + "file_search_store", i.fileSearchStore)
    + MemberOf(prefix + "chunking_strategy", i.chunkingStrategy, ParseChunkingStrategy)
    + Between(prefix + "max_tokens_per_chunk", i.maxTokensPerChunk, 100, 1000)
    + Between(prefix + "overlap_tokens", i.overlapTokens, 0, 100)
  }

  function BuildRagConfig(i: RagConfigInput): RagConfig {
    RagConfig(
      i.fileSearchStore.GetOr(""),
      if i.chunkingStrategy.Some? then ParseChunkingStrategy(i.chunkingStrategy.value).GetOr(Whitespace) else Whitespace,
      i.maxTokensPerChunk.GetOr(200),
      i.overlapTokens.GetOr(20),
      i.embeddingModel.GetOr("text-embedding-004"))
  }

  /** `RAGConfig(...)`: a store name is required; unset fields take whitespace chunking, 200
      tokens per chunk, 20 overlap tokens and "text-embedding-004". */
  function CheckRagConfig(i: RagConfigInput): (r: Checked<RagConfig>)
    ensures r.Valid? ==> RagConfigValid(r.value) && Some(r.value.fileSearchStore) == i.fileSearchStore
    ensures r.Valid? ==> (r.value.maxTokensPerChunk == i.maxTokensPerChunk.GetOr(200)
                          && r.value.overlapTokens == i.overlapTokens.GetOr(20))
    ensures r.Valid? <==> && i.fileSearchStore.Some?
                          && (i.chunkingStrategy.Some? ==> ParseChunkingStrategy(i.chunkingStrategy.value).Some?)
                          && (i.maxTokensPerChunk.Some? ==> 100 <= i.maxTokensPerChunk.value <= 1000)
                          && (i.overlapTokens.Some? ==> 0 <= i.overlapTokens.value <= 100)
  {
    var errors := RagConfigErrors(i, "");
    if errors == [] then Valid(BuildRagConfig(i)) else Invalid(errors)
  }

  datatype ModelConfig = ModelConfig(model: string, temperature: real, topK: int, maxOutputTokens: int)

  ghost predicate ModelConfigValid(c: ModelConfig) {
    0.0 <= c.temperature <= 2.0 && 1 <= c.topK <= 50 && 100 <= c.maxOutputTokens <= 4096
  }

  datatype ModelConfigInput = ModelConfigInput(
    model: Option<string>, temperature: Option<real>, topK: Option<int>, maxOutputTokens: Option<int>)

  function ModelConfigErrors(i: ModelConfigInput, prefix: string): seq<FieldError> {
    BetweenReal(prefix + "temperature", i.temperature, 0.0, "0.0", 2.0, "2.0")
    + Between(prefix + "top_k", i.topK, 1, 50) + Between(prefix + "max_output_tokens", i.maxOutputTokens, 100, 4096)
  }

  function BuildModelConfig(i: ModelConfigInput): ModelConfig {
    ModelConfig(i.model.GetOr("gemini-2.5-flash"), i.temperature.GetOr(0.7), i.topK.GetOr(10), i.maxOutputTokens.GetOr(2048))
  }

  /** `ModelConfig(...)`: every field has a default ("gemini-2.5-flash", top_k 10, 2048
      output tokens); given values must lie within the declared bounds. */
  function CheckModelConfig(i: ModelConfigInput): (r: Checked<ModelConfig>)
    ensures r.Valid? ==> (ModelConfigValid(r.value) && r.value.model == i.model.GetOr("gemini-2.5-flash")
                          && r.value.temperature == i.temperature.GetOr(0.7)
                          && r.value.topK == i.topK.GetOr(10)
                          && r.value.maxOutputTokens == i.maxOutputTokens.GetOr(2048))
    ensures r.Valid? <==> && (i.temperature.Some? ==> 0.0 <= i.temperature.value <= 2.0)
                          && (i.topK.Some? ==> 1 <= i.topK.value <= 50)
                          && (i.maxOutputTokens.Some? ==> 100 <= i.maxOutputTokens.value <= 4096)
  {
    var errors := ModelConfigErrors(i, "");
    if errors == [] then Valid(BuildModelConfig(i)) else Invalid(errors)
  }

  /** With nothing given, the defaults themselves satisfy the bounds. */
  lemma DefaultsAreValid(store: string)
    ensures var r := CheckRagConfig(RagConfigInput(Some(store), None, None, None, None));
      r.Valid? && r.value == RagConfig(store, Whitespace, 200, 20, "text-embedding-004")
    ensures CheckModelConfig(ModelConfigInput(None, None, None, None)) == Valid(ModelConfig("gemini-2.5-flash", 0.7, 10, 2048))
  {
  }

  // ---------------------------------------------------------------- AgentConfig

  datatype AgentConfig = AgentConfig(
    id: string, name: string, instructions: string, fileSource: string, fileType: FileType,
    status: AgentStatus, ragConfig: RagConfig, modelConfig: ModelConfig,
    sufficiencyScore: int, isSufficient: bool,
    n8nFlowId: Option<string>, mindsdbKbId: Option<string>,
    createdAt: int, updatedAt: int, deployedAt: Option<int>)

  /** The declared bounds of an agent configuration. */
  ghost predicate AgentConfigValid(c: AgentConfig) {
    && |c.name| <= 255 && |c.instructions| <= 5000
    && RagConfigValid(c.ragConfig) && ModelConfigValid(c.modelConfig)
    && 0 <= c.sufficiencyScore <= 100
  }

  /** The keyword arguments given to `AgentConfig(...)`; keys it does not declare are
      ignored, so they have no place here. */
  datatype AgentConfigInput = AgentConfigInput(
    id: Option<string>, name: Option<string>, instructions: Option<string>,
    fileSource: Option<string>, fileType: Option<string>, status: Option<string>,
    ragConfig: Option<RagConfigInput>, modelConfig: Option<ModelConfigInput>,
    sufficiencyScore: Option<int>, createdAt: Option<int>)

  function AgentConfigErrors(i: AgentConfigInput): seq<FieldError> {
    Required("name", i.name) + MaxLength("name", i.name, 255)
    + Required("instructions", i.instructions) + MaxLength("instructions", i.instructions, 5000)
    + Required("file_source", i.fileSource)
    + Required("file_type", i.fileType) + MemberOf("file_type", i.fileType, ParseFileType)
    + MemberOf("status", i.status, ParseAgentStatus)
    + Required("rag_config", i.ragConfig)
    + (if i.ragConfig.Some? then RagConfigErrors(i.ragConfig.value, "rag_config -> ") else [])
    + Required("model_config", i.modelConfig)
    + (if i.modelConfig.Some? then ModelConfigErrors(i.modelConfig.value, "model_config -> ") else [])
    + Between("sufficiency_score", i.sufficiencyScore, 0, 100)
  }

  /** `AgentConfig(**fields)` at clock `now` with `freshId` standing for the generated uuid. */
  function CheckAgentConfig(i: AgentConfigInput, freshId: string, now: int): (r: Checked<AgentConfig>)
    ensures r.Invalid? ==> r.errors != []
  {
    var errors := AgentConfigErrors(i);
    if errors != [] then Invalid(errors)
    else
      var status := if i.status.Some? then ParseAgentStatus(i.status.value).GetOr(Pending) else Pending;
      var fileType := if i.fileType.Some? then ParseFileType(i.fileType.value).GetOr(Pdf) else Pdf;
      Valid(AgentConfig(
        i.id.GetOr(freshId), i.name.GetOr(""), i.instructions.GetOr(""), i.fileSource.GetOr(""),
        fileType, status,
        BuildRagConfig(i.ragConfig.GetOr(RagConfigInput(None, None, None, None, None))),
        BuildModelConfig(i.modelConfig.GetOr(ModelConfigInput(None, None, None, None))),
        i.sufficiencyScore.GetOr(0), false, None, None,
        i.createdAt.GetOr(now), now, None))
  }

  /** Every object `AgentConfig(...)` produces satisfies the declared bounds and carries the
      given name, instructions, file type and score (0 when not given). */
  lemma AgentConfigChecked(i: AgentConfigInput, freshId: string, now: int)
    requires CheckAgentConfig(i, freshId, now).Valid?
    ensures var c := CheckAgentConfig(i, freshId, now).value;
      && AgentConfigValid(c)
      && Some(c.name) == i.name && Some(c.instructions) == i.instructions
      && Some(FileTypeName(c.fileType)) == i.fileType
      && c.sufficiencyScore == i.sufficiencyScore.GetOr(0)
      && c.id == i.id.GetOr(freshId)
  {
    var e := AgentConfigErrors(i);
    assert Required("name", i.name) == [] && MaxLength("name", i.name, 255) == [];
    assert Required("file_type", i.fileType) == [] && MemberOf("file_type", i.fileType, ParseFileType) == [];
    assert Required("rag_config", i.ragConfig) == [] && RagConfigErrors(i.ragConfig.value, "rag_config -> ") == [];
    assert Required("model_config", i.modelConfig) == [] && ModelConfigErrors(i.modelConfig.value, "model_config -> ") == [];
  }

  /** The keyword arguments meet every declared requirement of `AgentConfig`. */
  ghost predicate AgentConfigInputConforms(i: AgentConfigInput) {
    && i.name.Some? && |i.name.value| <= 255
    && i.instructions.Some? && |i.instructions.value| <= 5000
    && i.fileSource.Some?
    && i.fileType.Some? && ParseFileType(i.fileType.value).Some?
    && (i.status.Some? ==> ParseAgentStatus(i.status.value).Some?)
    && i.ragConfig.Some?
    && i.ragConfig.value.fileSearchStore.Some?
    && (i.ragConfig.value.chunkingStrategy.Some? ==> ParseChunkingStrategy(i.ragConfig.value.chunkingStrategy.value).Some?)
    && (i.ragConfig.value.maxTokensPerChunk.Some? ==> 100 <= i.ragConfig.value.maxTokensPerChunk.value <= 1000)
    && (i.ragConfig.value.overlapTokens.Some? ==> 0 <= i.ragConfig.value.overlapTokens.value <= 100)
    && i.modelConfig.Some?
    && (i.modelConfig.value.temperature.Some? ==> 0.0 <= i.modelConfig.value.temperature.value <= 2.0)
    && (i.modelConfig.value.topK.Some? ==> 1 <= i.modelConfig.value.topK.value <= 50)
    && (i.modelConfig.value.maxOutputTokens.Some? ==> 100 <= i.modelConfig.value.maxOutputTokens.value <= 4096)
    && (i.sufficiencyScore.Some? ==> 0 <= i.sufficiencyScore.value <= 100)
  }

  /** `AgentConfig(...)` accepts exactly the arguments that meet every declared requirement. */
  lemma AgentConfigAcceptedIff(i: AgentConfigInput, freshId: string, now: int)
    ensures CheckAgentConfig(i, freshId, now).Valid? <==> AgentConfigInputConforms(i)
  {
    if i.ragConfig.Some? {
      var r := i.ragConfig.value;
      var prefix := "rag_config -> ";
      assert RagConfigErrors(r, prefix) == [] <==>
        && Required(prefix + "file_search_store", r.fileSearchStore) == []
        && MemberOf(prefix + "chunking_strategy", r.chunkingStrategy, ParseChunkingStrategy) == []
        && Between(prefix + "max_tokens_per_chunk", r.maxTokensPerChunk, 100, 1000) == []
        && Between(prefix + "overlap_tokens", r.overlapTokens, 0, 100) == [];
    }
    if i.modelConfig.Some? {
      var m := i.modelConfig.value;
      var prefix := "model_config -> ";
      assert ModelConfigErrors(m, prefix) == [] <==>
        && BetweenReal(prefix + "temperature", m.temperature, 0.0, "0.0", 2.0, "2.0") == []
        && Between(prefix + "top_k", m.topK, 1, 50) == []
        && Between(prefix + "max_output_tokens", m.maxOutputTokens, 100, 4096) == [];
    }
  }

  /** Without a file type the constructor always fails, whatever else is given. */
  lemma MissingFileTypeRejected(i: AgentConfigInput, freshId: string, now: int)
    requires i.fileType.None?
    ensures var r := CheckAgentConfig(i, freshId, now);
      r.Invalid? && FieldError("file_type", FieldRequired) in r.errors
  {
    var e := AgentConfigErrors(i);
    var before := Required("name", i.name) + MaxLength("name", i.name, 255)
      + Required("instructions", i.instructions) + MaxLength("instructions", i.instructions, 5000)
      + Required("file_source", i.fileSource);
    assert e[|before|] == FieldError("file_type", FieldRequired);
  }

  // ---------------------------------------------------------------- the processing record

  datatype TaskLogEntry = TaskLogEntry(
    level: string, message: string, timestamp: int, taskId: Option<string>, metadata: Option<seq<Entry>>)

  datatype InternetSearchFallback = InternetSearchFallback(
    isEnabled: bool, maxRetries: int, timeoutSeconds: int, searchQuery: string,
    results: Option<seq<seq<Entry>>>)

  /** The schema's processing record: every log entry it writes is tagged with its task id
      and keeps the metadata exactly as given (None included). */
  class ProcessingPipeline {
    const taskId: string
    var agentConfig: Option<AgentConfig>
    var currentStep: string
    var stepsCompleted: seq<string>
    var logs: seq<TaskLogEntry>
    var errors: seq<string>
    var fallbackSearches: seq<InternetSearchFallback>
    var startedAt: int
    var updatedAt: int

    /** `ProcessingPipeline()`: defaults, with `freshId` for the generated task id. */
    constructor (taskId: Option<string>, freshId: string, now: int)
      ensures this.taskId == taskId.GetOr(freshId)
      ensures agentConfig == None && currentStep == "upload"
      ensures stepsCompleted == [] && logs == [] && errors == [] && fallbackSearches == []
      ensures startedAt == now && updatedAt == now
    {
      this.taskId := taskId.GetOr(freshId);
      agentConfig := None;
      currentStep := "upload";
      stepsCompleted := [];
      logs := [];
      errors := [];
      fallbackSearches := [];
      startedAt := now;
      updatedAt := now;
    }

    method AddLog(level: string, message: string, metadata: Option<seq<Entry>>, now: int)
      modifies this`logs, this`updatedAt
      ensures logs == old(logs) + [TaskLogEntry(level, message, now, Some(taskId), metadata)]
      ensures updatedAt == now
    {
      logs := logs + [TaskLogEntry(level, message, now, Some(taskId), metadata)];
      updatedAt := now;
    }

    method AddError(error: string, now: int)
      modifies this`logs, this`errors, this`updatedAt
      ensures errors == old(errors) + [error]
      ensures logs == old(logs) + [TaskLogEntry("ERROR", error, now, Some(taskId), None)]
      ensures updatedAt == now
    {
      errors := errors + [error];
      AddLog("ERROR", error, None, now);
    }

    method MarkStepComplete(step: string, now: int)
      modifies this`stepsCompleted, this`updatedAt
      ensures stepsCompleted == old(stepsCompleted) + [step]
      ensures updatedAt == now
    {
      stepsCompleted := stepsCompleted + [step];
      updatedAt := now;
    }
  }
}
