/** The document sequencer (`process_document_pipeline`): it drives a service record through
    decision, parsing, RAG extraction and agent creation, returning early on the first
    problem. The file system, the API key setting and the Gemini File Search service are
    given as an environment. */
module DocumentProcessing {
  import opened Values
  import opened Text
  import opened Models
  import opened TaskRecord
  import opened BaseAgent

  datatype Request = Request(taskId: string, filePath: string, instructions: string, fileName: string)

  /** What the Gemini service does: whether importing the SDK and building its client
      succeed (or the exception they raise), the store's name (or the exception the store
      creation raises), the number of polls after which the upload operation reports done
      (or the exception starting the upload raises), and the analysis text. */
  datatype GeminiService =
    GeminiService(connect: Call<()>, createStore: Call<string>, upload: Call<nat>, analysis: Call<string>)

  /** `os.path.exists(file_path)`, whether `GEMINI_API_KEY` is set, and the service. */
  datatype Environment = Environment(fileExists: bool, apiKeySet: bool, gemini: GeminiService)

  const Supported: seq<string> := ["pdf", "docx", "txt", "json"]
  const AllSteps: seq<string> := ["decision", "parsing", "rag_extraction", "agent_creation"]

  const Step1Log := "\U{1F504} Step 1: Validating inputs..."
  const TooShortError := "Instructions too short (minimum 20 characters)"
  const Step3Log := "\U{1F504} Step 3: Extracting document with RAG..."
  const NoKeyError := "GEMINI_API_KEY not set"
  const Step4Log := "\U{1F504} Step 4: Creating agent configuration..."
  const DoneLog := "\U{1F389} Processing completed successfully!"

  /** `file_name.split('.')[-1].lower()`. */
  function FileTypeOfName(fileName: string): (t: string)
    ensures '.' !in t
  {
    var pieces := Split(fileName, '.');
    var last := pieces[|pieces| - 1];
    assert '.' !in last;
    Lower(last)
  }

  /** The type is the lowercased text after the last '.', or the whole name lowercased when it
      holds no '.'. */
  lemma FileTypeAfterLastDot(stem: string, suffix: string)
    requires '.' !in suffix
    ensures FileTypeOfName(stem + "." + suffix) == Lower(suffix)
    ensures FileTypeOfName(suffix) == Lower(suffix)
  {
    SplitLast(stem, '.', suffix);
  }

  function Info(message: string, now: int): RecordLogEntry {
    RecordLogEntry(now, "INFO", message, [])
  }

  function ErrorEntryLog(message: string, now: int): RecordLogEntry {
    RecordLogEntry(now, "ERROR", message, [])
  }

  /** The fields step 4 passes to `AgentConfig(...)`; `fileType` is the one the code omits. */
  function ConfigInput(req: Request, fileType: Option<string>, storeName: string, now: int): AgentConfigInput {
    AgentConfigInput(
      Some("agent_" + req.taskId),
      Some(RemoveAll(req.fileName, ".pdf")),
      Some(Take(req.instructions, 500)),
      Some(req.fileName),
      fileType,
      Some("ready"),
      Some(RagConfigInput(Some(storeName), Some("whitespace"), Some(200), None, None)),
      Some(ModelConfigInput(Some("gemini-2.5-flash"), Some(0.7), Some(10), None)),
      None,
      Some(now))
  }

  /** Step 4 as the code builds it: without `file_type`. */
  function AsWrittenConfigInput(req: Request, storeName: string, now: int): AgentConfigInput {
    ConfigInput(req, None, storeName, now)
  }

  /** Step 4 with the detected file type supplied, as the schema requires. */
  function CorrectedConfigInput(req: Request, fileType: string, storeName: string, now: int): AgentConfigInput {
    ConfigInput(req, Some(fileType), storeName, now)
  }

  /** As written, building the agent configuration fails for every request. */
  lemma AsWrittenConfigAlwaysRejected(req: Request, storeName: string, now: int)
    ensures var r := CheckAgentConfig(AsWrittenConfigInput(req, storeName, now), "", now);
      r.Invalid? && FieldError("file_type", FieldRequired) in r.errors
  {
    MissingFileTypeRejected(AsWrittenConfigInput(req, storeName, now), "", now);
  }

  /** With the file type supplied, the configuration is built exactly when the derived name
      fits in 255 characters, and then satisfies every declared bound. */
  lemma CorrectedConfigAccepted(req: Request, fileType: string, storeName: string, now: int)
    requires fileType in Supported
    ensures var r := CheckAgentConfig(CorrectedConfigInput(req, fileType, storeName, now), "", now);
      && (r.Valid? <==> |RemoveAll(req.fileName, ".pdf")| <= 255)
      && (r.Valid? ==> AgentConfigValid(r.value))
  {
    var i := CorrectedConfigInput(req, fileType, storeName, now);
    assert |Take(req.instructions, 500)| <= 5000;
    assert ParseFileType(fileType).Some?;
    assert AgentConfigErrors(i) == [] <==> |RemoveAll(req.fileName, ".pdf")| <= 255;
    if CheckAgentConfig(i, "", now).Valid? {
      AgentConfigChecked(i, "", now);
    }
  }

  /** A configuration built with the file type supplied carries "agent_" + task id, the
      first 500 characters of the instructions, status ready and that file type. */
  lemma CorrectedConfigFields(req: Request, fileType: string, storeName: string, now: int)
    requires CheckAgentConfig(CorrectedConfigInput(req, fileType, storeName, now), "", now).Valid?
    ensures var c := CheckAgentConfig(CorrectedConfigInput(req, fileType, storeName, now), "", now).value;
      && c.id == "agent_" + req.taskId
      && c.instructions == Take(req.instructions, 500)
      && FileTypeName(c.fileType) == fileType
      && c.status == Ready
  {
    AgentConfigChecked(CorrectedConfigInput(req, fileType, storeName, now), "", now);
  }

  // ---------------------------------------------------------------- the RAG step

  /** What the RAG step wrote to the record's log and how it ended: the store's name, or the
      text of the exception it caught. */
  datatype RagRun = RagRun(logs: seq<RecordLogEntry>, outcome: Call<string>)

  function RagStep(fileName: string, g: GeminiService, now: int): (r: RagRun)
    ensures r.outcome.Returned? <==>
      g.connect.Returned? && g.createStore.Returned? && g.upload.Returned? && g.analysis.Returned?
    ensures r.outcome.Returned? ==> r.outcome.value == g.createStore.value
    ensures g.connect.Raised? ==> r == RagRun([], Raised(g.connect.reason))
  {
    if g.connect.Raised? then RagRun([], Raised(g.connect.reason)) else
    var creating := [Info("\U{1F4E6} Creating File Search Store...", now)];
    match g.createStore
    case Raised(e) => RagRun(creating, Raised(e))
    case Returned(store) =>
      var uploading := creating + [Info("\U{2705} Store created: " + store, now),
                                   Info("\U{1F4E4} Uploading " + fileName + "...", now)];
      match g.upload
      case Raised(e) => RagRun(uploading, Raised(e))
      case Returned(_) =>
        var indexed := uploading + [Info("\U{2705} File uploaded and indexed", now)];
        match g.analysis
        case Raised(e) => RagRun(indexed, Raised(e))
        case Returned(text) =>
          RagRun(indexed + [Info("\U{1F4CA} Analysis: " + Take(text, 200) + "...", now)], Returned(store))
  }

  // ---------------------------------------------------------------- the steps

  /** Why step 1 stops a run. */
  datatype Rejection = InstructionsTooShort | FileNotFound(path: string) | UnsupportedType(fileType: string)

  /** The error text step 1 records. */
  function RejectionMessage(why: Rejection): string {
    match why
    case InstructionsTooShort => TooShortError
    case FileNotFound(path) => "File not found: " + path
    case UnsupportedType(t) => "Unsupported file type: " + t
  }

  datatype Verdict = Accepted(fileType: string) | Rejected(why: Rejection)

  /** Step 1: the detected file type, or the reason the run ends. The checks run in order:
      stripped instructions of at least 20 characters, an existing file, a supported type. */
  function Decision(req: Request, env: Environment): (d: Verdict)
    ensures d.Accepted? <==> |Strip(req.instructions)| >= 20 && env.fileExists && FileTypeOfName(req.fileName) in Supported
    ensures d.Accepted? ==> d.fileType == FileTypeOfName(req.fileName)
  {
    var t := FileTypeOfName(req.fileName);
    if |Strip(req.instructions)| < 20 then Rejected(InstructionsTooShort)
    else if !env.fileExists then Rejected(FileNotFound(req.filePath))
    else if t !in Supported then Rejected(UnsupportedType(t))
    else Accepted(t)
  }

  function ValidatedLog(t: string, now: int): RecordLogEntry {
    Info("\U{2705} Validation complete (file type: " + t + ")", now)
  }

  /** Step 2 writes two lines for a file to convert and one for a PDF. */
  function ParsingLogs(t: string, now: int): seq<RecordLogEntry> {
    if t != "pdf" then [Info("\U{1F504} Step 2: Converting to PDF...", now), Info("\U{2705} File converted", now)]
    else [Info("\U{2705} File is PDF - no conversion needed", now)]
  }

  /** Step 3: the store's name, or the error text that ends the run. */
  function Extraction(req: Request, env: Environment, now: int): Call<string> {
    if !env.apiKeySet then Raised(NoKeyError)
    else
      match RagStep(req.fileName, env.gemini, now).outcome
      case Raised(e) => Raised("RAG extraction failed: " + e)
      case Returned(store) => Returned(store)
  }

  function ExtractionLogs(req: Request, env: Environment, now: int): seq<RecordLogEntry> {
    [Info(Step3Log, now)]
    + if !env.apiKeySet then [ErrorEntryLog(NoKeyError, now)]
      else
        var rag := RagStep(req.fileName, env.gemini, now);
        rag.logs + match rag.outcome
                   case Raised(e) => [ErrorEntryLog("RAG extraction failed: " + e, now)]
                   case Returned(_) => [Info("\U{2705} Extraction complete (score: 75%)", now)]
  }

  /** Step 4's configuration build: as the code writes it (`supplyFileType` false) or with
      the detected file type supplied (true). */
  function Creation(req: Request, t: string, store: string, now: int, supplyFileType: bool): Checked<AgentConfig> {
    CheckAgentConfig(StepFourInput(req, t, store, now, supplyFileType), "", now)
  }

  function StepFourInput(req: Request, t: string, store: string, now: int, supplyFileType: bool): AgentConfigInput {
    if supplyFileType then CorrectedConfigInput(req, t, store, now) else AsWrittenConfigInput(req, store, now)
  }

  /** The text of pydantic's ValidationError: a count line, then each field and message. */
  function ValidationErrorText(errors: seq<FieldError>): string {
    var n := |errors|;
    IntToString(n) + (if n == 1 then " validation error" else " validation errors") + " for AgentConfig"
    + ErrorLines(errors)
  }

  function ErrorLines(errors: seq<FieldError>): string {
    if errors == [] then "" else "\n" + errors[0].loc + "\n  " + Describe(errors[0].problem) + ErrorLines(errors[1..])
  }

  /** The entries step 4 appends, by how the build `built` ended. */
  function CreationLogs(built: Checked<AgentConfig>, now: int): seq<RecordLogEntry> {
    [Info(Step4Log, now)]
    + match built
      case Invalid(errors) => [ErrorEntryLog("Unexpected error: " + ValidationErrorText(errors), now)]
      case Valid(c) => [Info("\U{2705} Agent created: " + c.id, now), RecordLogEntry(now, "SUCCESS", DoneLog, [])]
  }

  // ---------------------------------------------------------------- how a run ends

  datatype RunEnd =
    | DecisionFailed(why: Rejection)
    | MissingApiKey(fileType: string)
    | RagFailed(fileType: string, reason: string)
    | ConfigRejected(fileType: string, storeName: string, errors: seq<FieldError>)
    | Completed(fileType: string, storeName: string, config: AgentConfig)

  /** How a run ends; `supplyFileType` chooses the corrected (true) or the as-written (false)
      configuration build of step 4. */
  function RunEndWith(req: Request, env: Environment, now: int, supplyFileType: bool): RunEnd {
    match Decision(req, env)
    case Rejected(why) => DecisionFailed(why)
    case Accepted(t) => EndAfterDecision(req, env, now, t, supplyFileType)
  }

  function EndAfterDecision(req: Request, env: Environment, now: int, t: string, supplyFileType: bool): RunEnd {
    if !env.apiKeySet then MissingApiKey(t)
    else
      match RagStep(req.fileName, env.gemini, now).outcome
      case Raised(e) => RagFailed(t, e)
      case Returned(store) =>
        EndOfCreation(t, store, Creation(req, t, store, now, supplyFileType))
  }

  function EndOfCreation(t: string, store: string, built: Checked<AgentConfig>): RunEnd {
    match built
    case Invalid(errors) => ConfigRejected(t, store, errors)
    case Valid(c) => Completed(t, store, c)
  }

  /** How the corrected run ends, the detected file type being passed to step 4. */
  function Outcome(req: Request, env: Environment, now: int): RunEnd {
    RunEndWith(req, env, now, true)
  }

  /** The steps a run marks complete, by how it ends. */
  function StepsDone(e: RunEnd): (s: seq<string>)
    ensures |s| <= |AllSteps| && s == AllSteps[..|s|]
  {
    if e.DecisionFailed? then [] else ["decision"] + StepsAfterDecision(e)
  }

  function StepsAfterDecision(e: RunEnd): seq<string> {
    match e
    case DecisionFailed(_) => []
    case MissingApiKey(_) => ["parsing"]
    case RagFailed(_, _) => ["parsing"]
    case ConfigRejected(_, _, _) => ["parsing", "rag_extraction"]
    case Completed(_, _, _) => ["parsing", "rag_extraction", "agent_creation"]
  }

  /** `current_step` when the run is over. */
  function StepReached(e: RunEnd): string {
    match e
    case DecisionFailed(_) => "decision"
    case MissingApiKey(_) => "rag_extraction"
    case RagFailed(_, _) => "rag_extraction"
    case ConfigRejected(_, _, _) => "error"
    case Completed(_, _, _) => "complete"
  }

  /** The errors a run records: one exactly when it does not complete. */
  function ErrorsOf(e: RunEnd): (r: seq<string>)
    ensures |r| <= 1 && (r == [] <==> e.Completed?)
  {
    match e
    case DecisionFailed(why) => [RejectionMessage(why)]
    case MissingApiKey(_) => [NoKeyError]
    case RagFailed(_, reason) => ["RAG extraction failed: " + reason]
    case ConfigRejected(_, _, errors) => ["Unexpected error: " + ValidationErrorText(errors)]
    case Completed(_, _, _) => []
  }

  /** Every entry a run appends to the record's log, in order. */
  function LogsOf(req: Request, env: Environment, now: int, supplyFileType: bool): seq<RecordLogEntry> {
    match Decision(req, env)
    case Rejected(why) => [Info(Step1Log, now), ErrorEntryLog(RejectionMessage(why), now)]
    case Accepted(t) => [Info(Step1Log, now), ValidatedLog(t, now)] + LogsAfterDecision(req, env, now, t, supplyFileType)
  }

  /** The entries steps 2 to 4 append once the file type `t` is known. */
  function LogsAfterDecision(req: Request, env: Environment, now: int, t: string, supplyFileType: bool): seq<RecordLogEntry> {
    ParsingLogs(t, now) + ExtractionLogs(req, env, now)
    + match Extraction(req, env, now)
      case Raised(_) => []
      case Returned(store) => CreationLogs(Creation(req, t, store, now, supplyFileType), now)
  }

  lemma AppendAssoc<T>(a: seq<T>, b: seq<T>, c: seq<T>)
    ensures a + b + c == a + (b + c)
  {
  }

  lemma AppendPair<T>(a: seq<T>, x: T, y: T)
    ensures a + [x] + [y] == a + [x, y]
  {
  }

  // ---------------------------------------------------------------- the sequencer

  method DecisionStep(req: Request, record: TaskRecord.ProcessingPipeline, env: Environment, now: int)
    returns (d: Verdict)
    modifies record`currentStep, record`stepsCompleted, record`logs, record`errors, record`agentConfig, record`updatedAt
    ensures d == Decision(req, env)
    ensures record.currentStep == "decision" && record.updatedAt == now
    ensures record.agentConfig == old(record.agentConfig)
    ensures match d
      case Rejected(why) =>
        && record.stepsCompleted == old(record.stepsCompleted)
        && record.errors == old(record.errors) + [RejectionMessage(why)]
        && record.logs == old(record.logs) + [Info(Step1Log, now), ErrorEntryLog(RejectionMessage(why), now)]
      case Accepted(t) =>
        && record.stepsCompleted == old(record.stepsCompleted) + ["decision"]
        && record.errors == old(record.errors)
        && record.logs == old(record.logs) + [Info(Step1Log, now), ValidatedLog(t, now)]
  {
    record.currentStep := "decision";
    ghost var logs0 := record.logs;
    record.AddLog("INFO", Step1Log, None, now);
    if |Strip(req.instructions)| < 20 {
      record.AddError(TooShortError, now);
      AppendPair(logs0, Info(Step1Log, now), ErrorEntryLog(TooShortError, now));
      return Rejected(InstructionsTooShort);
    }
    if !env.fileExists {
      record.AddError("File not found: " + req.filePath, now);
      AppendPair(logs0, Info(Step1Log, now), ErrorEntryLog("File not found: " + req.filePath, now));
      return Rejected(FileNotFound(req.filePath));
    }
    var fileType := FileTypeOfName(req.fileName);
    if fileType !in Supported {
      record.AddError("Unsupported file type: " + fileType, now);
      AppendPair(logs0, Info(Step1Log, now), ErrorEntryLog("Unsupported file type: " + fileType, now));
      return Rejected(UnsupportedType(fileType));
    }
    record.MarkStepComplete("decision", now);
    record.AddLog("INFO", "\U{2705} Validation complete (file type: " + fileType + ")", None, now);
    AppendPair(logs0, Info(Step1Log, now), ValidatedLog(fileType, now));
    d := Accepted(fileType);
  }

  method ParsingStep(t: string, record: TaskRecord.ProcessingPipeline, now: int)
    modifies record`currentStep, record`stepsCompleted, record`logs, record`errors, record`agentConfig, record`updatedAt
    ensures record.currentStep == "parsing" && record.updatedAt == now
    ensures record.agentConfig == old(record.agentConfig) && record.errors == old(record.errors)
    ensures record.stepsCompleted == old(record.stepsCompleted) + ["parsing"]
    ensures record.logs == old(record.logs) + ParsingLogs(t, now)
  {
    record.currentStep := "parsing";
    if t != "pdf" {
      record.AddLog("INFO", "\U{1F504} Step 2: Converting to PDF...", None, now);
      record.AddLog("INFO", "\U{2705} File converted", None, now);
    } else {
      record.AddLog("INFO", "\U{2705} File is PDF - no conversion needed", None, now);
    }
    record.MarkStepComplete("parsing", now);
  }

  /** The Gemini calls of step 3, each logged once it succeeds; the first exception ends them. */
  method CallGemini(fileName: string, record: TaskRecord.ProcessingPipeline, g: GeminiService, now: int)
    returns (outcome: Call<string>)
    modifies record`logs, record`updatedAt
    ensures outcome == RagStep(fileName, g, now).outcome
    ensures record.logs == old(record.logs) + RagStep(fileName, g, now).logs
    ensures record.updatedAt == if g.connect.Raised? then old(record.updatedAt) else now
  {
    if g.connect.Raised? {
      return Raised(g.connect.reason);
    }
    ghost var logs0 := record.logs;
    record.AddLog("INFO", "\U{1F4E6} Creating File Search Store...", None, now);
    if g.createStore.Raised? {
      return Raised(g.createStore.reason);
    }
    var store := g.createStore.value;
    record.AddLog("INFO", "\U{2705} Store created: " + store, None, now);
    record.AddLog("INFO", "\U{1F4E4} Uploading " + fileName + "...", None, now);
    ghost var uploading := [Info("\U{1F4E6} Creating File Search Store...", now),
                            Info("\U{2705} Store created: " + store, now),
                            Info("\U{1F4E4} Uploading " + fileName + "...", now)];
    assert record.logs == logs0 + uploading;
    if g.upload.Raised? {
      return Raised(g.upload.reason);
    }
    // The `while not operation.done` poll ends after the `g.upload.value` rounds the service
    // answered; it reads nothing the record holds and writes nothing, so no step of it is kept.
    record.AddLog("INFO", "\U{2705} File uploaded and indexed", None, now);
    ghost var indexed := uploading + [Info("\U{2705} File uploaded and indexed", now)];
    AppendAssoc(logs0, uploading, [Info("\U{2705} File uploaded and indexed", now)]);
    if g.analysis.Raised? {
      return Raised(g.analysis.reason);
    }
    var text := g.analysis.value;
    record.AddLog("INFO", "\U{1F4CA} Analysis: " + Take(text, 200) + "...", None, now);
    AppendAssoc(logs0, indexed, [Info("\U{1F4CA} Analysis: " + Take(text, 200) + "...", now)]);
    outcome := Returned(store);
  }

  method ExtractionStep(req: Request, record: TaskRecord.ProcessingPipeline, env: Environment, now: int)
    returns (x: Call<string>)
    modifies record`currentStep, record`stepsCompleted, record`logs, record`errors, record`agentConfig, record`updatedAt
    ensures x == Extraction(req, env, now)
    ensures record.currentStep == "rag_extraction" && record.updatedAt == now
    ensures record.agentConfig == old(record.agentConfig)
    ensures record.logs == old(record.logs) + ExtractionLogs(req, env, now)
    ensures match x
      case Raised(m) =>
        record.stepsCompleted == old(record.stepsCompleted) && record.errors == old(record.errors) + [m]
      case Returned(_) =>
        record.stepsCompleted == old(record.stepsCompleted) + ["rag_extraction"] && record.errors == old(record.errors)
  {
    record.currentStep := "rag_extraction";
    ghost var logs0 := record.logs;
    record.AddLog("INFO", Step3Log, None, now);
    if !env.apiKeySet {
      record.AddError(NoKeyError, now);
      AppendPair(logs0, Info(Step3Log, now), ErrorEntryLog(NoKeyError, now));
      return Raised(NoKeyError);
    }
    ghost var rag := RagStep(req.fileName, env.gemini, now);
    var outcome := CallGemini(req.fileName, record, env.gemini, now);
    ghost var last: RecordLogEntry;
    match outcome {
      case Raised(e) =>
        record.AddError("RAG extraction failed: " + e, now);
        last := ErrorEntryLog("RAG extraction failed: " + e, now);
        x := Raised("RAG extraction failed: " + e);
      case Returned(store) =>
        record.MarkStepComplete("rag_extraction", now);
        record.AddLog("INFO", "\U{2705} Extraction complete (score: 75%)", None, now);
        last := Info("\U{2705} Extraction complete (score: 75%)", now);
        x := Returned(store);
    }
    assert record.logs == logs0 + [Info(Step3Log, now)] + rag.logs + [last];
    AppendAssoc(logs0 + [Info(Step3Log, now)], rag.logs, [last]);
    AppendAssoc(logs0, [Info(Step3Log, now)], rag.logs + [last]);
  }

  method CreationStep(req: Request, t: string, store: string, record: TaskRecord.ProcessingPipeline, now: int,
                      supplyFileType: bool)
    returns (built: Checked<AgentConfig>)
    modifies record`currentStep, record`stepsCompleted, record`logs, record`errors, record`agentConfig, record`updatedAt
    ensures built == Creation(req, t, store, now, supplyFileType)
    ensures record.updatedAt == now
    ensures record.logs == old(record.logs) + CreationLogs(built, now)
    ensures match built
      case Invalid(errors) =>
        && record.currentStep == "error" && record.agentConfig == old(record.agentConfig)
        && record.stepsCompleted == old(record.stepsCompleted)
        && record.errors == old(record.errors) + ["Unexpected error: " + ValidationErrorText(errors)]
      case Valid(c) =>
        && record.currentStep == "complete" && record.agentConfig == Some(c)
        && record.stepsCompleted == old(record.stepsCompleted) + ["agent_creation"]
        && record.errors == old(record.errors)
  {
    built := Creation(req, t, store, now, supplyFileType);
    RecordCreation(built, record, now);
  }

  /** What step 4 does to the record once the build has ended as `built`: a rejected build
      reaches the outer handler, an accepted one is stored and the run completes. */
  method RecordCreation(built: Checked<AgentConfig>, record: TaskRecord.ProcessingPipeline, now: int)
    modifies record`currentStep, record`stepsCompleted, record`logs, record`errors, record`agentConfig, record`updatedAt
    ensures record.updatedAt == now
    ensures record.logs == old(record.logs) + CreationLogs(built, now)
    ensures match built
      case Invalid(errors) =>
        && record.currentStep == "error" && record.agentConfig == old(record.agentConfig)
        && record.stepsCompleted == old(record.stepsCompleted)
        && record.errors == old(record.errors) + ["Unexpected error: " + ValidationErrorText(errors)]
      case Valid(c) =>
        && record.currentStep == "complete" && record.agentConfig == Some(c)
        && record.stepsCompleted == old(record.stepsCompleted) + ["agent_creation"]
        && record.errors == old(record.errors)
  {
    record.currentStep := "agent_creation";
    ghost var logs0 := record.logs;
    record.AddLog("INFO", Step4Log, None, now);
    if built.Invalid? {
      ghost var failed := ErrorEntryLog("Unexpected error: " + ValidationErrorText(built.errors), now);
      assert CreationLogs(built, now) == [Info(Step4Log, now), failed];
      record.AddError("Unexpected error: " + ValidationErrorText(built.errors), now);
      record.currentStep := "error";
      AppendPair(logs0, Info(Step4Log, now), failed);
      return;
    }
    record.agentConfig := Some(built.value);
    record.MarkStepComplete("agent_creation", now);
    record.AddLog("INFO", "\U{2705} Agent created: " + built.value.id, None, now);
    record.currentStep := "complete";
    record.AddLog("SUCCESS", DoneLog, None, now);
    ghost var created := Info("\U{2705} Agent created: " + built.value.id, now);
    assert CreationLogs(built, now) == [Info(Step4Log, now), created, RecordLogEntry(now, "SUCCESS", DoneLog, [])];
    AppendPair(logs0, Info(Step4Log, now), created);
    assert record.logs == logs0 + [Info(Step4Log, now), created] + [RecordLogEntry(now, "SUCCESS", DoneLog, [])];
  }

  /** A run whose step 3 fails ends there, with that step's error. */
  lemma EndWhenExtractionFails(req: Request, env: Environment, now: int, t: string, supplyFileType: bool)
    requires Extraction(req, env, now).Raised?
    ensures var e := EndAfterDecision(req, env, now, t, supplyFileType);
      && StepReached(e) == "rag_extraction" && StepsAfterDecision(e) == ["parsing"]
      && ErrorsOf(e) == [Extraction(req, env, now).reason] && !e.Completed?
      && LogsAfterDecision(req, env, now, t, supplyFileType) == ParsingLogs(t, now) + ExtractionLogs(req, env, now)
  {
    assert LogsAfterDecision(req, env, now, t, supplyFileType) == ParsingLogs(t, now) + ExtractionLogs(req, env, now) + [];
  }

  /** A run whose step 3 returns the store ends as step 4's build decides. */
  lemma EndWhenExtracted(req: Request, env: Environment, now: int, t: string, store: string, supplyFileType: bool)
    requires Extraction(req, env, now) == Returned(store)
    ensures EndAfterDecision(req, env, now, t, supplyFileType)
         == EndOfCreation(t, store, Creation(req, t, store, now, supplyFileType))
    ensures LogsAfterDecision(req, env, now, t, supplyFileType)
         == ParsingLogs(t, now) + ExtractionLogs(req, env, now) + CreationLogs(Creation(req, t, store, now, supplyFileType), now)
  {
  }

  /** Step 4 once step 3 returned the store, stated by how the run ends. */
  method FinishRun(req: Request, t: string, store: string, record: TaskRecord.ProcessingPipeline, now: int,
                   supplyFileType: bool)
    modifies record`currentStep, record`stepsCompleted, record`logs, record`errors, record`agentConfig, record`updatedAt
    ensures var e := EndOfCreation(t, store, Creation(req, t, store, now, supplyFileType));
      && record.currentStep == StepReached(e)
      && record.stepsCompleted == old(record.stepsCompleted) + StepsAfterDecision(e)[2..]
      && record.errors == old(record.errors) + ErrorsOf(e)
      && record.logs == old(record.logs) + CreationLogs(Creation(req, t, store, now, supplyFileType), now)
      && record.agentConfig == (if e.Completed? then Some(e.config) else old(record.agentConfig))
      && record.updatedAt == now
  {
    var built := CreationStep(req, t, store, record, now, supplyFileType);
    EndOfCreationFacts(t, store, built);
  }

  /** How step 4's build decides the end of the run. */
  lemma EndOfCreationFacts(t: string, store: string, built: Checked<AgentConfig>)
    ensures var e := EndOfCreation(t, store, built);
      match built
      case Invalid(errors) =>
        && StepReached(e) == "error" && StepsAfterDecision(e)[2..] == [] && !e.Completed?
        && ErrorsOf(e) == ["Unexpected error: " + ValidationErrorText(errors)]
      case Valid(c) =>
        && StepReached(e) == "complete" && StepsAfterDecision(e)[2..] == ["agent_creation"]
        && e.Completed? && e.config == c && ErrorsOf(e) == []
  {
  }

  /** Steps 2 to 4 once the file type `t` is known. */
  method RunAfterDecision(req: Request, t: string, record: TaskRecord.ProcessingPipeline, env: Environment, now: int,
                          supplyFileType: bool)
    modifies record`currentStep, record`stepsCompleted, record`logs, record`errors, record`agentConfig, record`updatedAt
    ensures var e := EndAfterDecision(req, env, now, t, supplyFileType);
      && record.currentStep == StepReached(e)
      && record.stepsCompleted == old(record.stepsCompleted) + StepsAfterDecision(e)
      && record.errors == old(record.errors) + ErrorsOf(e)
      && record.logs == old(record.logs) + LogsAfterDecision(req, env, now, t, supplyFileType)
      && record.agentConfig == (if e.Completed? then Some(e.config) else old(record.agentConfig))
      && record.updatedAt == now
  {
    ghost var logs0 := record.logs;
    ghost var steps0 := record.stepsCompleted;
    ParsingStep(t, record, now);
    var x := ExtractionStep(req, record, env, now);
    AppendAssoc(logs0, ParsingLogs(t, now), ExtractionLogs(req, env, now));
    if x.Raised? {
      EndWhenExtractionFails(req, env, now, t, supplyFileType);
      return;
    }
    var store := x.value;
    EndWhenExtracted(req, env, now, t, store, supplyFileType);
    ghost var e := EndOfCreation(t, store, Creation(req, t, store, now, supplyFileType));
    CreationSteps(t, store, Creation(req, t, store, now, supplyFileType));
    AppendPair(steps0, "parsing", "rag_extraction");
    ghost var s := StepsAfterDecision(e);
    FinishRun(req, t, store, record, now, supplyFileType);
    AppendAssoc(logs0, ParsingLogs(t, now) + ExtractionLogs(req, env, now), CreationLogs(Creation(req, t, store, now, supplyFileType), now));
    AppendAssoc(steps0, ["parsing", "rag_extraction"], s[2..]);
    assert record.stepsCompleted == steps0 + s;
  }

  lemma CreationSteps(t: string, store: string, built: Checked<AgentConfig>)
    ensures var s := StepsAfterDecision(EndOfCreation(t, store, built));
      s == ["parsing", "rag_extraction"] + s[2..]
  {
  }

  /** `process_document_pipeline`: the record ends at the step reached, with exactly the
      steps, errors and log entries of that path appended. `supplyFileType` false is the code
      as written, true the corrected step 4. */
  method ProcessDocumentPipeline(req: Request, record: TaskRecord.ProcessingPipeline, env: Environment, now: int,
                                 supplyFileType: bool)
    modifies record`currentStep, record`stepsCompleted, record`logs, record`errors, record`agentConfig, record`updatedAt
    ensures var e := RunEndWith(req, env, now, supplyFileType);
      && record.currentStep == StepReached(e)
      && record.stepsCompleted == old(record.stepsCompleted) + StepsDone(e)
      && record.errors == old(record.errors) + ErrorsOf(e)
      && record.logs == old(record.logs) + LogsOf(req, env, now, supplyFileType)
      && record.agentConfig == (if e.Completed? then Some(e.config) else old(record.agentConfig))
      && record.updatedAt == now
  {
    ghost var logs0 := record.logs;
    ghost var steps0 := record.stepsCompleted;
    var d := DecisionStep(req, record, env, now);
    if d.Rejected? {
      assert RunEndWith(req, env, now, supplyFileType) == DecisionFailed(d.why);
      return;
    }
    var t := d.fileType;
    ghost var head := [Info(Step1Log, now), ValidatedLog(t, now)];
    RunAfterDecision(req, t, record, env, now, supplyFileType);
    AcceptedRun(req, env, now, t, supplyFileType);
    AppendAssoc(logs0, head, LogsAfterDecision(req, env, now, t, supplyFileType));
    AppendAssoc(steps0, ["decision"], StepsAfterDecision(EndAfterDecision(req, env, now, t, supplyFileType)));
  }

  /** Once step 1 accepts the file type `t`, the run is step 1's two lines and mark followed
      by steps 2 to 4. */
  lemma AcceptedRun(req: Request, env: Environment, now: int, t: string, supplyFileType: bool)
    requires Decision(req, env) == Accepted(t)
    ensures var e := EndAfterDecision(req, env, now, t, supplyFileType);
      && RunEndWith(req, env, now, supplyFileType) == e
      && StepsDone(e) == ["decision"] + StepsAfterDecision(e)
      && LogsOf(req, env, now, supplyFileType)
         == [Info(Step1Log, now), ValidatedLog(t, now)] + LogsAfterDecision(req, env, now, t, supplyFileType)
  {
  }

  // ---------------------------------------------------------------- properties of a run

  /** A run whose configuration is rejected has completed three steps and ends at "error",
      recording pydantic's message as an unexpected error. */
  lemma RejectedStops(e: RunEnd)
    requires e.ConfigRejected?
    ensures StepReached(e) == "error" && StepsDone(e) == ["decision", "parsing", "rag_extraction"]
    ensures ErrorsOf(e) == ["Unexpected error: " + ValidationErrorText(e.errors)]
  {
    assert AllSteps[..3] == ["decision", "parsing", "rag_extraction"];
  }

  /** Instructions that strip to fewer than 20 characters stop the run before any step is
      completed, whatever the environment. */
  lemma ShortInstructionsStop(req: Request, env: Environment, now: int)
    ensures Outcome(req, env, now) == DecisionFailed(InstructionsTooShort) <==> |Strip(req.instructions)| < 20
    ensures |Strip(req.instructions)| < 20 ==> StepsDone(Outcome(req, env, now)) == []
  {
    if |Strip(req.instructions)| >= 20 && Decision(req, env).Accepted? {
      var t := Decision(req, env).fileType;
      assert Outcome(req, env, now) == EndAfterDecision(req, env, now, t, true);
    }
  }

  /** A file type outside pdf/docx/txt/json stops the run at "decision" with nothing completed. */
  lemma UnsupportedTypeStops(req: Request, env: Environment, now: int)
    requires |Strip(req.instructions)| >= 20 && env.fileExists
    requires FileTypeOfName(req.fileName) !in Supported
    ensures Outcome(req, env, now) == DecisionFailed(UnsupportedType(FileTypeOfName(req.fileName)))
    ensures StepReached(Outcome(req, env, now)) == "decision" && StepsDone(Outcome(req, env, now)) == []
  {
  }

  /** A missing API key stops the run at "rag_extraction" with exactly decision and parsing
      completed. */
  lemma MissingKeyStopsAfterParsing(req: Request, env: Environment, now: int)
    requires |Strip(req.instructions)| >= 20 && env.fileExists
    requires FileTypeOfName(req.fileName) in Supported && !env.apiKeySet
    ensures var e := Outcome(req, env, now);
      && StepsDone(e) == ["decision", "parsing"]
      && StepReached(e) == "rag_extraction"
      && ErrorsOf(e) == [NoKeyError]
  {
    var e := Outcome(req, env, now);
    assert e == MissingApiKey(FileTypeOfName(req.fileName));
    assert AllSteps[..2] == ["decision", "parsing"];
  }

  /** A run completes exactly when every check and service call succeeds and the derived
      agent name fits in 255 characters. */
  lemma CompletedIff(req: Request, env: Environment, now: int)
    ensures var e := Outcome(req, env, now);
      e.Completed? <==>
        && |Strip(req.instructions)| >= 20 && env.fileExists
        && FileTypeOfName(req.fileName) in Supported && env.apiKeySet
        && env.gemini.connect.Returned? && env.gemini.createStore.Returned?
        && env.gemini.upload.Returned? && env.gemini.analysis.Returned?
        && |RemoveAll(req.fileName, ".pdf")| <= 255
  {
    var t := FileTypeOfName(req.fileName);
    var e := Outcome(req, env, now);
    if |Strip(req.instructions)| >= 20 && env.fileExists && t in Supported && env.apiKeySet {
      var rag := RagStep(req.fileName, env.gemini, now);
      if rag.outcome.Returned? {
        var store := rag.outcome.value;
        var r := CheckAgentConfig(CorrectedConfigInput(req, t, store, now), "", now);
        CorrectedConfigAccepted(req, t, store, now);
        assert e == (if r.Valid? then Completed(t, store, r.value) else ConfigRejected(t, store, r.errors));
      } else {
        assert e == RagFailed(t, rag.outcome.reason);
      }
    }
  }

  /** A completed run stores the configuration of "agent_" + task id with the first 500
      characters of the instructions and the detected file type. */
  lemma CompletedFacts(req: Request, env: Environment, now: int)
    requires Outcome(req, env, now).Completed?
    ensures var e := Outcome(req, env, now);
      && e.config.id == "agent_" + req.taskId
      && e.config.instructions == Take(req.instructions, 500)
      && FileTypeName(e.config.fileType) == FileTypeOfName(req.fileName)
  {
    var t := FileTypeOfName(req.fileName);
    var e := Outcome(req, env, now);
    var rag := RagStep(req.fileName, env.gemini, now);
    assert rag.outcome.Returned?;
    var store := rag.outcome.value;
    var r := CheckAgentConfig(CorrectedConfigInput(req, t, store, now), "", now);
    assert e == Completed(t, store, r.value);
    CorrectedConfigFields(req, t, store, now);
  }

  /** As written, no run ever reaches "complete": a run that gets through RAG extraction ends
      in the outer handler with `current_step` "error". */
  lemma AsWrittenNeverCompletes(req: Request, env: Environment, now: int)
    ensures !RunEndWith(req, env, now, false).Completed?
    ensures && |Strip(req.instructions)| >= 20 && env.fileExists
            && FileTypeOfName(req.fileName) in Supported && env.apiKeySet
            && env.gemini.connect.Returned? && env.gemini.createStore.Returned?
            && env.gemini.upload.Returned? && env.gemini.analysis.Returned?
            ==> RunEndWith(req, env, now, false).ConfigRejected?
  {
    var t := FileTypeOfName(req.fileName);
    var e := RunEndWith(req, env, now, false);
    if |Strip(req.instructions)| >= 20 && env.fileExists && t in Supported && env.apiKeySet {
      var rag := RagStep(req.fileName, env.gemini, now);
      if rag.outcome.Returned? {
        var store := rag.outcome.value;
        var r := CheckAgentConfig(AsWrittenConfigInput(req, store, now), "", now);
        assert r.Invalid?;
        assert e == ConfigRejected(t, store, r.errors);
      } else {
        assert e == RagFailed(t, rag.outcome.reason);
      }
    }
  }

  /** As written, a run that gets through RAG extraction ends in the outer handler: three
      steps completed and `current_step` "error". */
  lemma AsWrittenEndsInError(req: Request, env: Environment, now: int)
    requires |Strip(req.instructions)| >= 20 && env.fileExists
    requires FileTypeOfName(req.fileName) in Supported && env.apiKeySet
    requires env.gemini.connect.Returned? && env.gemini.createStore.Returned?
    requires env.gemini.upload.Returned? && env.gemini.analysis.Returned?
    ensures var e := RunEndWith(req, env, now, false);
      && StepReached(e) == "error" && StepsDone(e) == ["decision", "parsing", "rag_extraction"]
      && e.ConfigRejected? && FieldError("file_type", FieldRequired) in e.errors
      && ErrorsOf(e) == ["Unexpected error: " + ValidationErrorText(e.errors)]
  {
    var t := FileTypeOfName(req.fileName);
    var store := RagStep(req.fileName, env.gemini, now).outcome.value;
    var e := RunEndWith(req, env, now, false);
    var r := Creation(req, t, store, now, false);
    assert Decision(req, env) == Accepted(t);
    assert e == EndOfCreation(t, store, r);
    AsWrittenConfigAlwaysRejected(req, store, now);
    assert e == ConfigRejected(t, store, r.errors);
    RejectedStops(e);
  }
}
