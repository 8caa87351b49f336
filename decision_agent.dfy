/** The decision agent (`DecisionAgent`): it checks that the instructions are long enough,
    that a file was given and of which type, and picks the next step of the flow. */
module DecisionAgent {
  import opened Values
  import opened Text
  import opened BaseAgent

  const MinInstructionLength := 20

  const Types: set<string> := {"pdf", "docx", "txt", "json", "unknown"}

  // ---------------------------------------------------------------- file type detection

  /** The suffix test `_determine_file_type` applies to a lowercased name. */
  function TypeBySuffix(name: string): (t: Option<string>)
    ensures t.Some? ==> t.value in {"pdf", "docx", "txt", "json"}
  {
    var n := Lower(name);
    if EndsWith(n, ".pdf") then Some("pdf")
    else if EndsWith(n, ".docx") || EndsWith(n, ".doc") then Some("docx")
    else if EndsWith(n, ".txt") then Some("txt")
    else if EndsWith(n, ".json") then Some("json")
    else None
  }

  /** The content-type test, tried in the order pdf, word or document, text, json. */
  function TypeByContentType(contentType: string): (t: Option<string>)
    ensures t.Some? ==> t.value in {"pdf", "docx", "txt", "json"}
  {
    var c := Lower(contentType);
    if Contains(c, "pdf") then Some("pdf")
    else if Contains(c, "word") || Contains(c, "document") then Some("docx")
    else if Contains(c, "text") then Some("txt")
    else if Contains(c, "json") then Some("json")
    else None
  }

  /** `_determine_file_type`: a path string is judged by its suffix; an uploaded file by its
      file name, then by its content type; anything else, or no match, is "unknown". An
      uploaded file's attribute holding None makes its `.lower()` raise. */
  function DetermineFileType(file: Value): (r: Call<string>)
    ensures r.Returned? ==> r.value in Types
    ensures file.VStr? ==> r == Returned(TypeBySuffix(file.s).GetOr("unknown"))
    ensures !file.VStr? && !file.VObject? ==> r == Returned("unknown")
    ensures r.Raised? <==> file.VObject? && (file.filename.None?
                                            || (TypeBySuffix(file.filename.value).None? && file.contentType.None?))
    ensures r.Raised? ==> r.reason == NoAttribute(VNone, "lower")
  {
    match file
    case VStr(path) => Returned(TypeBySuffix(path).GetOr("unknown"))
    case VObject(_, name, contentType) =>
      if name.None? then Raised(NoAttribute(VNone, "lower"))
      else if TypeBySuffix(name.value).Some? then Returned(TypeBySuffix(name.value).value)
      else if contentType.None? then Raised(NoAttribute(VNone, "lower"))
      else Returned(TypeByContentType(contentType.value).GetOr("unknown"))
    case _ => Returned("unknown")
  }

  /** A name's suffix decides over its content type: an uploaded "notes.TXT" sent as
      "application/pdf" is a txt file. */
  lemma NameBeforeContentType(name: string, contentType: Option<string>)
    requires TypeBySuffix(name).Some?
    ensures DetermineFileType(VObject("f", Some(name), contentType)) == Returned(TypeBySuffix(name).value)
  {
  }

  /** Suffixes are compared case-insensitively. */
  lemma SuffixIgnoresCase(name: string)
    ensures TypeBySuffix(Upper(name)) == TypeBySuffix(name)
  {
    assert Lower(Upper(name)) == Lower(name) by {
      forall i | 0 <= i < |name| ensures Lower(Upper(name))[i] == Lower(name)[i] {
        var c := name[i];
        assert LowerChar(UpperChar(c)) == LowerChar(c);
      }
    }
  }

  // ---------------------------------------------------------------- decisions

  /** The `decisions` dict `execute` builds. */
  datatype Decisions = Decisions(
    instructionsValid: bool, fileExists: bool, fileType: Option<string>,
    nextStep: string, requiresConversion: bool, messages: seq<string>)

  /** `input_data.get("file") or input_data.get("file_path")`. */
  function FileOf(d: seq<Entry>): Value {
    var file := Get(d, "file").GetOr(VNone);
    if Truthy(file) then file else Get(d, "file_path").GetOr(VNone)
  }

  function InstructionsMessage(stripped: string): string {
    if |stripped| < MinInstructionLength then "\U{274C} Instructions too short (minimum 20 characters)"
    else "\U{2705} Instructions valid (" + NatToString(|stripped|) + " characters)"
  }

  function FileMessages(fileType: Option<string>): seq<string> {
    match fileType
    case None => ["\U{274C} No file provided"]
    case Some(t) =>
      ["\U{2705} File detected: " + Upper(t)]
      + if t != "pdf" then ["\U{26A0}\U{FE0F} " + Upper(t) + " file - conversion to PDF required"]
        else ["\U{2705} PDF format - no conversion needed"]
  }

  function NextStepMessage(next: string): string {
    if next == "request_more_info" then "\U{274C} Cannot proceed - missing required information"
    else "\U{1F3AF} Next step: " + next
  }

  /** The file type `execute` records: None without a file, else the detected type, or the
      exception detection raises. */
  function DetectedType(file: Value): (r: Call<Option<string>>)
    ensures !Truthy(file) ==> r == Returned(None)
    ensures Truthy(file) ==> match DetermineFileType(file)
                             case Raised(m) => r == Raised(m)
                             case Returned(t) => r == Returned(Some(t))
  {
    if !Truthy(file) then Returned(None)
    else match DetermineFileType(file)
      case Raised(m) => Raised(m)
      case Returned(t) => Returned(Some(t))
  }

  /** What `execute` decides for the stripped instructions and the detected file type, None
      meaning that no file was given. */
  function DecisionsFor(stripped: string, fileType: Option<string>): (d: Decisions) {
    var valid := |stripped| >= MinInstructionLength;
    var exists_ := fileType.Some?;
    var conversion := exists_ && fileType.value != "pdf";
    var next := if valid && exists_ then (if conversion then "parse_to_pdf" else "extract_with_rag")
                else "request_more_info";
    Decisions(valid, exists_, fileType, next, conversion,
              [InstructionsMessage(stripped)] + FileMessages(fileType) + [NextStepMessage(next)])
  }

  /** The routing rule: conversion first when the type is not PDF, extraction for a PDF, and
      a request for more information unless the instructions are valid and a file is present. */
  lemma Routing(stripped: string, fileType: Option<string>)
    ensures var d := DecisionsFor(stripped, fileType);
      && (d.instructionsValid <==> |stripped| >= 20)
      && (d.fileExists <==> fileType.Some?) && d.fileType == fileType
      && (d.requiresConversion <==> fileType.Some? && fileType.value != "pdf")
      && (d.nextStep == "parse_to_pdf" <==> d.instructionsValid && d.fileExists && d.requiresConversion)
      && (d.nextStep == "extract_with_rag" <==> d.instructionsValid && d.fileExists && !d.requiresConversion)
      && (d.nextStep == "request_more_info" <==> !(d.instructionsValid && d.fileExists))
  {
  }

  /** An unrecognised file still needs conversion: "unknown" is not "pdf". */
  lemma UnknownNeedsConversion(stripped: string)
    ensures DecisionsFor(stripped, Some("unknown")).requiresConversion
  {
  }

  /** Three messages without a file, four with one; the last always names the outcome. */
  lemma MessageCount(stripped: string, fileType: Option<string>)
    ensures var d := DecisionsFor(stripped, fileType);
      && |d.messages| == (if d.fileExists then 4 else 3)
      && d.messages[|d.messages| - 1] == NextStepMessage(d.nextStep)
  {
  }

  /** The instructions check of `execute`. */
  method CheckInstructionsStep(stripped: string) returns (valid: bool, message: string)
    ensures valid <==> |stripped| >= MinInstructionLength
    ensures message == InstructionsMessage(stripped)
  {
    if |stripped| < MinInstructionLength {
      valid := false;
      message := "\U{274C} Instructions too short (minimum 20 characters)";
    } else {
      valid := true;
      message := "\U{2705} Instructions valid (" + NatToString(|stripped|) + " characters)";
    }
  }

  /** The file check of `execute`: the type of the file, if one is present, and whether it
      must be converted. */
  method CheckFileStep(file: Value) returns (detected: Call<Option<string>>, conversion: bool, messages: seq<string>)
    ensures detected == DetectedType(file)
    ensures detected.Returned? ==>
      && (conversion <==> detected.value.Some? && detected.value.value != "pdf")
      && messages == FileMessages(detected.value)
  {
    if !Truthy(file) {
      return Returned(None), false, ["\U{274C} No file provided"];
    }
    var r := DetermineFileType(file);
    if r.Raised? {
      return Raised(r.reason), false, [];
    }
    var t := r.value;
    detected := Returned(Some(t));
    messages := ["\U{2705} File detected: " + Upper(t)];
    if t != "pdf" {
      conversion := true;
      messages := messages + ["\U{26A0}\U{FE0F} " + Upper(t) + " file - conversion to PDF required"];
    } else {
      conversion := false;
      messages := messages + ["\U{2705} PDF format - no conversion needed"];
    }
  }

  /** The `execute` body: the two checks, then the next step and its message; the exception
      of the type detection, if it raises. */
  method BuildDecisions(stripped: string, file: Value) returns (r: Call<Decisions>)
    ensures r == match DetectedType(file)
                 case Raised(m) => Raised(m)
                 case Returned(t) => Returned(DecisionsFor(stripped, t))
  {
    var valid, instructionsMessage := CheckInstructionsStep(stripped);
    var detected, conversion, fileMessages := CheckFileStep(file);
    if detected.Raised? {
      return Raised(detected.reason);
    }
    var fileType := detected.value;
    var next: string;
    var nextMessage: string;
    if valid && fileType.Some? {
      next := if conversion then "parse_to_pdf" else "extract_with_rag";
      nextMessage := "\U{1F3AF} Next step: " + next;
    } else {
      next := "request_more_info";
      nextMessage := "\U{274C} Cannot proceed - missing required information";
    }
    assert nextMessage == NextStepMessage(next);
    r := Returned(Decisions(valid, fileType.Some?, fileType, next, conversion,
                            [instructionsMessage] + fileMessages + [nextMessage]));
  }

  /** The decisions as the dict placed under "data". */
  function DecisionsValue(d: Decisions): Value {
    VDict([
      Entry("instructions_valid", VBool(d.instructionsValid)),
      Entry("file_exists", VBool(d.fileExists)),
      Entry("file_type", if d.fileType.Some? then VStr(d.fileType.value) else VNone),
      Entry("next_step", VStr(d.nextStep)),
      Entry("requires_conversion", VBool(d.requiresConversion)),
      Entry("messages", StrList(d.messages))])
  }

  // ---------------------------------------------------------------- the agent's two methods

  /** `validate_input`: only the "instructions" key is required. */
  function Validate(inv: Invocation, input: Value): (e: Effects<bool>)
    ensures input.VDict? ==> e.call == Returned("instructions" in Keys(input.entries))
    ensures e.errored == []
  {
    RequireFields(inv.now, input, ["instructions"])
  }

  function Info(inv: Invocation, message: string): LogEntry {
    InfoLog(inv.now, message)
  }

  function Warning(inv: Invocation, message: string): LogEntry {
    WarningLog(inv.now, message)
  }

  /** The entry `execute` logs after the instructions check. */
  function InstructionsLog(inv: Invocation, stripped: string): LogEntry {
    if |stripped| >= MinInstructionLength then Info(inv, "Instructions validated")
    else Warning(inv, "Instructions too short: " + NatToString(|stripped|) + " chars")
  }

  /** The entries `execute` logs along a successful decision. */
  function DecisionLogs(inv: Invocation, stripped: string, d: Decisions): seq<LogEntry> {
    [InstructionsLog(inv, stripped)]
    + (match d.fileType
       case None => [Warning(inv, "No file provided")]
       case Some(t) =>
         [Info(inv, "File type detected: " + t)]
         + if d.requiresConversion then [Info(inv, "Conversion required: " + t + " -> pdf")] else [])
    + [LogEntry(inv.now, "INFO", "Decision making completed", DecisionsValue(d).entries)]
  }

  /** `execute`: a non-dict input, non-string instructions or a file type that cannot be
      read make the body raise, which the handler turns into an error result with data None;
      otherwise a success result carries the decisions. */
  function Execute(inv: Invocation, input: Value): (e: Effects<StageResult>)
    ensures e.call.Returned?
    ensures e.call.value.status == "success" <==>
      && input.VDict? && Get(input.entries, "instructions").GetOr(VStr("")).VStr?
      && DetectedType(FileOf(input.entries)).Returned?
    ensures e.call.value.status == "success" ==>
      var stripped := Strip(Get(input.entries, "instructions").GetOr(VStr("")).s);
      e.call.value.data == Present(DecisionsValue(DecisionsFor(stripped, DetectedType(FileOf(input.entries)).value)))
    ensures input.VDict? && Get(input.entries, "instructions").GetOr(VStr("")).VStr?
            && DetectedType(FileOf(input.entries)).Raised? ==>
      e.call.value == ErrorResult(inv.agentId, DetectedType(FileOf(input.entries)).reason)
    ensures e.call.value.status != "success" ==>
      (e.call.value == ErrorResult(inv.agentId, e.call.value.message) && |e.errored| == 1)
  {
    var start := Info(inv, "Starting decision making process");
    var failure: Option<string> :=
      if !input.VDict? then Some(NoAttribute(input, "get"))
      else
        var ins := Get(input.entries, "instructions").GetOr(VStr(""));
        if !ins.VStr? then Some(NoAttribute(ins, "strip")) else None;
    if failure.Some? then
      var m := failure.value;
      var e := WithError(Returned(ErrorResult(inv.agentId, m)), inv.now, "Decision making failed: " + m, Some(m));
      e.(logged := [start] + e.logged)
    else
      var stripped := Strip(Get(input.entries, "instructions").GetOr(VStr("")).s);
      match DetectedType(FileOf(input.entries))
      case Raised(m) =>
        var e := WithError(Returned(ErrorResult(inv.agentId, m)), inv.now, "Decision making failed: " + m, Some(m));
        e.(logged := [start, InstructionsLog(inv, stripped)] + e.logged)
      case Returned(t) =>
        var d := DecisionsFor(stripped, t);
        Effects(Returned(StageResult("success", inv.agentId, "Decision making process completed",
                                     Present(DecisionsValue(d)))),
                [start] + DecisionLogs(inv, stripped, d), [])
  }

  const DecisionStage := Stage("DecisionAgent", Validate, Execute)

  /** A dict input without a file passes validation and is routed to "request_more_info". */
  lemma MissingFileStillValid(inv: Invocation, d: seq<Entry>, instructions: string)
    requires Get(d, "instructions") == Some(VStr(instructions))
    requires !Truthy(Get(d, "file").GetOr(VNone)) && !Truthy(Get(d, "file_path").GetOr(VNone))
    ensures Validate(inv, VDict(d)).call == Returned(true)
    ensures Execute(inv, VDict(d)).call.value.data == Present(DecisionsValue(DecisionsFor(Strip(instructions), None)))
    ensures DecisionsFor(Strip(instructions), None).nextStep == "request_more_info"
  {
  }

  // ---------------------------------------------------------------- summary

  function SummaryParts(d: Decisions): (parts: seq<string>)
    ensures |parts| == 5
  {
    ["Instructions: " + (if d.instructionsValid then "\U{2705} Valid" else "\U{274C} Invalid"),
     "File: " + (if d.fileExists then "\U{2705} Present" else "\U{274C} Missing"),
     "File Type: " + (if d.fileType.Some? && d.fileType.value != "" then Upper(d.fileType.value) else "Unknown"),
     "Conversion Needed: " + (if d.requiresConversion then "Yes" else "No"),
     "Next Step: " + d.nextStep]
  }

  /** `get_decision_summary`: the five parts joined with " | ". */
  function Summary(d: Decisions): string {
    Join(" | ", SummaryParts(d))
  }

  /** The summary is the five parts in order, each after its label, separated by " | ": the
      instructions and file verdicts, the upper-cased file type (or "Unknown" when it is None
      or empty), whether conversion is needed, and the next step. */
  lemma SummaryText(d: Decisions)
    ensures Summary(d)
         == ("Instructions: " + (if d.instructionsValid then "\U{2705} Valid" else "\U{274C} Invalid"))
          + " | " + ("File: " + (if d.fileExists then "\U{2705} Present" else "\U{274C} Missing"))
          + " | " + ("File Type: " + (if d.fileType.Some? && d.fileType.value != "" then Upper(d.fileType.value) else "Unknown"))
          + " | " + ("Conversion Needed: " + (if d.requiresConversion then "Yes" else "No"))
          + " | " + ("Next Step: " + d.nextStep)
  {
    var p := SummaryParts(d);
    JoinFive(" | ", p[0], p[1], p[2], p[3], p[4]);
    assert p == [p[0], p[1], p[2], p[3], p[4]];
  }

  /** The summary opens with the instructions verdict and closes with the next step. */
  lemma SummaryShape(d: Decisions)
    ensures StartsWith(Summary(d), "Instructions: " + (if d.instructionsValid then "\U{2705} Valid" else "\U{274C} Invalid"))
    ensures EndsWith(Summary(d), "Next Step: " + d.nextStep)
  {
    JoinStartsWith(" | ", SummaryParts(d));
    JoinEndsWith(" | ", SummaryParts(d));
  }
}
