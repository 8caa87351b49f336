/** The fallback agent (`FallbackAgent`): it decides whether a process is stuck and, when it
    is, classifies the error, builds a search query and a list of recovery suggestions. */
module FallbackAgent {
  import opened Values
  import opened Text
  import opened BaseAgent

  /** `monitoring_timeout`, in seconds. */
  const DefaultTimeout := 30

  // ---------------------------------------------------------------- stuck detection

  /** The verdict of `_is_process_stuck` and the one entry it logs. */
  datatype StuckCheck = StuckCheck(stuck: bool, logged: seq<LogEntry>)

  /** Seconds elapsed since `updated_at`, or the text of the exception computing it raises.
      `parseIso` stands for `datetime.fromisoformat`. */
  function Elapsed(updatedAt: Value, now: int, parseIso: string -> Option<int>): Call<int> {
    match updatedAt
    case VStr(s) =>
      if parseIso(s).Some? then Returned(now - parseIso(s).value)
      else Raised("Invalid isoformat string: '" + s + "'")
    case VTime(t) => Returned(now - t)
    case _ => Raised("unsupported operand type(s) for -: 'datetime.datetime' and '" + TpName(updatedAt) + "'")
  }

  /** `len(v)`, for the values that have one. */
  function Len(v: Value): Call<nat> {
    match v
    case VStr(s) => Returned(|s|)
    case VList(items) => Returned(|items|)
    case VDict(d) => Returned(|d|)
    case _ => Raised("object of type '" + TpName(v) + "' has no len()")
  }

  function NotStuck(now: int, reason: string): StuckCheck {
    StuckCheck(false, [WarningLog(now, "Could not check process status: " + reason)])
  }

  /** `_is_process_stuck(process_status, timeout)`: stuck exactly when more than `timeout`
      seconds have passed since `updated_at`, the status is "processing" and errors were
      recorded. A missing or falsy `updated_at` is never stuck, and any exception on the way
      is caught and answered with "not stuck". */
  function IsProcessStuck(status: Value, timeout: Value, now: int, parseIso: string -> Option<int>): (c: StuckCheck)
    ensures c.stuck ==>
      && status.VDict?
      && Elapsed(Get(status.entries, "updated_at").GetOr(VNone), now, parseIso).Returned?
      && AsNumber(timeout).Some?
      && Elapsed(Get(status.entries, "updated_at").GetOr(VNone), now, parseIso).value as real > AsNumber(timeout).value
      && Get(status.entries, "status") == Some(VStr("processing"))
      && Len(Get(status.entries, "errors").GetOr(VList([]))).Returned?
      && Len(Get(status.entries, "errors").GetOr(VList([]))).value > 0
  {
    if !status.VDict? then NotStuck(now, NoAttribute(status, "get"))
    else
      var updatedAt := Get(status.entries, "updated_at").GetOr(VNone);
      var current := Get(status.entries, "status").GetOr(VStr(""));
      var errors := Get(status.entries, "errors").GetOr(VList([]));
      if !Truthy(updatedAt) then StuckCheck(false, [])
      else
        match Elapsed(updatedAt, now, parseIso)
        case Raised(m) => NotStuck(now, m)
        case Returned(elapsed) =>
          match AsNumber(timeout)
          case None => NotStuck(now, "'>' not supported between instances of 'float' and '" + TpName(timeout) + "'")
          case Some(limit) =>
            var verdict: Call<bool> :=
              if !(elapsed as real > limit && current == VStr("processing")) then Returned(false)
              else
                match Len(errors)
                case Raised(m) => Raised(m)
                case Returned(n) => Returned(n > 0);
            match verdict
            case Raised(m) => NotStuck(now, m)
            case Returned(stuck) =>
              StuckCheck(stuck, [InfoLog(now, "Process check: elapsed=" + IntToString(elapsed) + "s, timeout="
                                              + Repr(timeout) + "s, stuck=" + (if stuck then "True" else "False"))])
  }

  /** For a status dict whose `updated_at` is set and readable, a numeric timeout and an
      `errors` value with a length, the check is stuck exactly when the elapsed seconds exceed
      the timeout, the status is "processing" and the errors are not empty; it then logs one
      INFO line. */
  lemma StuckIff(status: seq<Entry>, timeout: Value, now: int, parseIso: string -> Option<int>)
    requires Truthy(Get(status, "updated_at").GetOr(VNone))
    requires Elapsed(Get(status, "updated_at").GetOr(VNone), now, parseIso).Returned?
    requires AsNumber(timeout).Some? && Len(Get(status, "errors").GetOr(VList([]))).Returned?
    ensures var c := IsProcessStuck(VDict(status), timeout, now, parseIso);
      && (c.stuck <==>
            && Elapsed(Get(status, "updated_at").GetOr(VNone), now, parseIso).value as real > AsNumber(timeout).value
            && Get(status, "status") == Some(VStr("processing"))
            && Len(Get(status, "errors").GetOr(VList([]))).value > 0)
      && |c.logged| == 1 && c.logged[0].level == "INFO"
  {
  }

  /** A status without "updated_at" is never stuck, and nothing is logged about it. */
  lemma MissingUpdatedAtNotStuck(status: seq<Entry>, timeout: Value, now: int, parseIso: string -> Option<int>)
    requires "updated_at" !in Keys(status)
    ensures IsProcessStuck(VDict(status), timeout, now, parseIso) == StuckCheck(false, [])
  {
  }

  // ---------------------------------------------------------------- error analysis

  const Keywords: seq<string> := ["api", "network", "file", "database", "auth", "upload", "parse"]

  /** The error types, in the order `_analyze_error` tests them. */
  function ErrorType(lower: string): (t: string)
    ensures t in {"timeout", "permission", "resource", "not_found", "general"}
  {
    if Contains(lower, "timeout") then "timeout"
    else if Contains(lower, "permission") || Contains(lower, "denied") then "permission"
    else if Contains(lower, "memory") || Contains(lower, "limit") then "resource"
    else if Contains(lower, "not found") || Contains(lower, "404") then "not_found"
    else "general"
  }

  function Severity(errorType: string): string {
    if errorType in {"timeout", "permission", "resource"} then "high" else "medium"
  }

  function LikelyCauses(errorType: string): seq<string> {
    match errorType
    case "timeout" => ["Process taking too long", "Network connectivity issue", "Resource exhaustion"]
    case "permission" => ["Insufficient permissions", "API key invalid", "Access denied"]
    case "resource" => ["Out of memory", "Quota exceeded", "Resource limit"]
    case "not_found" => ["File not found", "API endpoint changed", "Resource deleted"]
    case _ => ["Unexpected error", "Incompatible input", "External service issue"]
  }

  /** The dict `_analyze_error` returns; `AnalysisFailed` is the two-key dict of its handler. */
  datatype ErrorAnalysis =
    | Analysis(errorType: string, severity: string, likelyCauses: seq<string>, keywords: seq<string>)
    | AnalysisFailed

  /** `analysis.get("error_type", "unknown")`. */
  function TypeOf(a: ErrorAnalysis): string {
    if a.Analysis? then a.errorType else "unknown"
  }

  function AnalysisValue(a: ErrorAnalysis): Value {
    match a
    case Analysis(t, s, causes, ks) =>
      VDict([Entry("error_type", VStr(t)), Entry("severity", VStr(s)),
             Entry("likely_causes", StrList(causes)), Entry("keywords", StrList(ks))])
    case AnalysisFailed => VDict([Entry("error_type", VStr("unknown")), Entry("severity", VStr("medium"))])
  }

  /** What `_analyze_error` makes of a message that is a string. */
  function AnalysisOf(message: string): (a: ErrorAnalysis)
    ensures a.Analysis?
    ensures a.severity == "high" <==> a.errorType in {"timeout", "permission", "resource"}
  {
    var lower := Lower(message);
    var t := ErrorType(lower);
    Analysis(t, Severity(t), LikelyCauses(t), WordsIn(lower, Keywords))
  }

  /** The classification: the first matching test decides. */
  lemma Classification(message: string)
    ensures var lower := Lower(message); var t := AnalysisOf(message).errorType;
      && (t == "timeout" <==> Contains(lower, "timeout"))
      && (t == "permission" <==> !Contains(lower, "timeout")
                                 && (Contains(lower, "permission") || Contains(lower, "denied")))
      && (t == "resource" <==> !Contains(lower, "timeout") && !Contains(lower, "permission")
                               && !Contains(lower, "denied") && (Contains(lower, "memory") || Contains(lower, "limit")))
      && (t == "not_found" <==> !Contains(lower, "timeout") && !Contains(lower, "permission")
                                && !Contains(lower, "denied") && !Contains(lower, "memory") && !Contains(lower, "limit")
                                && (Contains(lower, "not found") || Contains(lower, "404")))
      && (t == "general" <==> !Contains(lower, "timeout") && !Contains(lower, "permission")
                              && !Contains(lower, "denied") && !Contains(lower, "memory")
                              && !Contains(lower, "limit") && !Contains(lower, "not found")
                              && !Contains(lower, "404"))
  {
  }

  /** The keywords are the words of the fixed list that occur in the lowercased message, in
      list order. */
  lemma KeywordsFound(message: string)
    ensures var a := AnalysisOf(message); var lower := Lower(message);
      && (forall k :: k in a.keywords <==> k in Keywords && Contains(lower, k))
      && Subsequence(a.keywords, Keywords)
  {
    WordsInSpec(Lower(message), Keywords);
  }

  /** `_analyze_error` with its keyword loop. A string message is analysed; a list is sliced
      and logged, then fails at `.lower()`; anything else fails at the slice. */
  method AnalyzeError(message: Value, now: int) returns (a: ErrorAnalysis, logged: seq<LogEntry>)
    ensures a == AnalysisFor(message) && logged == AnalysisLogs(message, now)
    ensures message.VStr? ==> a == AnalysisOf(message.s) && logged == [InfoLog(now, "Analyzing error: " + Take(message.s, 100))]
    ensures !message.VStr? ==> a == AnalysisFailed && logged[|logged| - 1].level == "WARNING"
  {
    if !message.VStr? {
      return AnalysisFailed, AnalysisLogs(message, now);
    }
    var text := message.s;
    logged := [InfoLog(now, "Analyzing error: " + Take(text, 100))];
    var lower := Lower(text);
    var errorType := ErrorType(lower);
    var found: seq<string> := [];
    var i := 0;
    while i < |Keywords|
      invariant 0 <= i <= |Keywords|
      invariant found == WordsIn(lower, Keywords[..i])
    {
      if Contains(lower, Keywords[i]) {
        found := found + [Keywords[i]];
      }
      assert Keywords[..i + 1][..i] == Keywords[..i];
      i := i + 1;
    }
    assert Keywords[..|Keywords|] == Keywords;
    a := Analysis(errorType, Severity(errorType), LikelyCauses(errorType), found);
  }

  // ---------------------------------------------------------------- search and suggestions

  const Prefixes: seq<string> := ["error:", "exception:", "failed:", "error -"]

  /** The prefix loop: the first prefix the lowercased text starts with is cut off and the
      rest stripped; at most one prefix is removed. */
  function CutPrefix(clean: string, prefixes: seq<string>): (r: string)
    decreases |prefixes|
  {
    if prefixes == [] then clean
    else if StartsWith(Lower(clean), prefixes[0]) then Strip(clean[|prefixes[0]|..])
    else CutPrefix(clean, prefixes[1..])
  }

  /** `_build_search_query`: the first line, cut to 100 characters, without one known prefix,
      after "python ". */
  function BuildSearchQuery(message: string): (q: string)
    ensures StartsWith(q, "python ")
    ensures |q| <= |"python "| + 100
  {
    var clean := Take(Split(message, '\n')[0], 100);
    var r := CutPrefix(clean, Prefixes);
    CutPrefixShorter(clean, Prefixes);
    "python " + r
  }

  lemma {:induction false} CutPrefixShorter(clean: string, prefixes: seq<string>)
    ensures |CutPrefix(clean, prefixes)| <= |clean|
    decreases |prefixes|
  {
    if prefixes != [] && !StartsWith(Lower(clean), prefixes[0]) {
      CutPrefixShorter(clean, prefixes[1..]);
    }
  }

  /** A first line that starts with none of the prefixes is kept whole. */
  lemma {:induction false} CutPrefixNoMatch(clean: string, prefixes: seq<string>)
    requires forall p :: p in prefixes ==> !StartsWith(Lower(clean), p)
    ensures CutPrefix(clean, prefixes) == clean
    decreases |prefixes|
  {
    if prefixes != [] {
      CutPrefixNoMatch(clean, prefixes[1..]);
    }
  }

  /** Only the first matching prefix is removed: "Error: error: x" keeps its second "error:". */
  lemma OnePrefixOnly()
    ensures CutPrefix("Error: error: x", Prefixes) == "error: x"
  {
    var clean := "Error: error: x";
    assert Lower(clean)[..6] == "error:" by {
      assert clean[..6] == "Error:";
      assert forall i :: 0 <= i < 6 ==> Lower(clean)[i] == LowerChar(clean[i]);
    }
    assert StartsWith(Lower(clean), Prefixes[0]);
    assert clean[6..] == " error: x";
    assert TrimLeft(" error: x") == "error: x" by {
      assert !IsSpace("error: x"[0]);
    }
    assert TrimRight("error: x") == "error: x";
  }

  /** When the first prefix the lowercased text starts with is `prefixes[i]`, that prefix is
      cut off and the rest stripped. */
  lemma {:induction false} CutPrefixFirst(clean: string, prefixes: seq<string>, i: nat)
    requires i < |prefixes| && StartsWith(Lower(clean), prefixes[i])
    requires forall j :: 0 <= j < i ==> !StartsWith(Lower(clean), prefixes[j])
    ensures |prefixes[i]| <= |clean| && CutPrefix(clean, prefixes) == Strip(clean[|prefixes[i]|..])
    decreases i
  {
    if i > 0 {
      assert !StartsWith(Lower(clean), prefixes[0]);
      CutPrefixFirst(clean, prefixes[1..], i - 1);
    }
  }

  /** The query is "python " and the first line cut to 100 characters, without the first of
      the four prefixes it starts with (compared in lower case), stripped after the cut. */
  lemma SearchQueryText(message: string)
    ensures var clean := Take(Split(message, '\n')[0], 100);
      && ((forall p :: p in Prefixes ==> !StartsWith(Lower(clean), p)) ==> BuildSearchQuery(message) == "python " + clean)
      && forall i :: 0 <= i < |Prefixes| && StartsWith(Lower(clean), Prefixes[i])
                     && (forall j :: 0 <= j < i ==> !StartsWith(Lower(clean), Prefixes[j]))
                     ==> BuildSearchQuery(message) == "python " + Strip(clean[|Prefixes[i]|..])
  {
    var clean := Take(Split(message, '\n')[0], 100);
    if forall p :: p in Prefixes ==> !StartsWith(Lower(clean), p) {
      CutPrefixNoMatch(clean, Prefixes);
    }
    forall i | 0 <= i < |Prefixes| && StartsWith(Lower(clean), Prefixes[i])
               && (forall j :: 0 <= j < i ==> !StartsWith(Lower(clean), Prefixes[j]))
      ensures BuildSearchQuery(message) == "python " + Strip(clean[|Prefixes[i]|..])
    {
      CutPrefixFirst(clean, Prefixes, i);
    }
  }

  /** One search result dict. */
  datatype SearchResult = SearchResult(query: string, url: string)

  function SearchResultValue(r: SearchResult): Value {
    VDict([Entry("source", VStr("google")), Entry("query", VStr(r.query)), Entry("url", VStr(r.url)),
           Entry("title", VStr("Google Search Results")), Entry("snippet", VStr("Search for: " + r.query))])
  }

  /** `_search_solutions`: a string message gives one result for its query; anything else
      fails in the outer handler and gives none. */
  function SearchSolutions(message: Value, now: int): (r: (seq<SearchResult>, seq<LogEntry>))
    ensures |r.0| == (if message.VStr? then 1 else 0)
  {
    var started := InfoLog(now, "Searching for solutions online");
    if message.VStr? then
      var q := BuildSearchQuery(message.s);
      ([SearchResult(q, "https://www.google.com/search?q=" + q)], [started, InfoLog(now, "Search completed for: " + q)])
    else
      ([], [started, LogEntry(now, "ERROR", "Solution search failed: " + NoAttribute(message, "split"), [])])
  }

  /** The four fixed suggestions of each error type; unknown types fall to the general list. */
  function BaseSuggestions(errorType: string): (s: seq<string>)
    ensures |s| == 4
  {
    match errorType
    case "timeout" => ["Increase timeout duration", "Check network connectivity",
                       "Split document into smaller files", "Reduce chunking complexity"]
    case "permission" => ["Verify API key is valid", "Check file permissions",
                          "Ensure service account has required access", "Try re-authenticating"]
    case "resource" => ["Process large files in batches", "Increase available resources",
                        "Reduce concurrent operations", "Archive older sessions"]
    case "not_found" => ["Verify file path is correct", "Check if resource still exists",
                         "Try re-uploading the file", "Check API documentation for updates"]
    case _ => ["Check error logs for details", "Try running process again",
               "Restart the service", "Contact support with error message"]
  }

  function OnlineItem(results: seq<SearchResult>): string
    requires results != []
  {
    "Found online solutions: " + results[0].url
  }

  /** What `_generate_suggestions` returns: the type's four suggestions, then one pointer to
      the first search result when there is one. */
  function Suggestions(analysis: ErrorAnalysis, results: seq<SearchResult>): (s: seq<string>)
    ensures |s| == 4 + (if results == [] then 0 else 1)
    ensures s[..4] == BaseSuggestions(TypeOf(analysis))
    ensures results != [] ==> s[4] == OnlineItem(results)
  {
    BaseSuggestions(TypeOf(analysis)) + (if results == [] then [] else [OnlineItem(results)])
  }

  /** `_generate_suggestions`, extending and appending a list. */
  method GenerateSuggestions(analysis: ErrorAnalysis, results: seq<SearchResult>) returns (suggestions: seq<string>)
    ensures suggestions == Suggestions(analysis, results)
  {
    suggestions := [];
    var errorType := TypeOf(analysis);
    suggestions := suggestions + BaseSuggestions(errorType);
    if results != [] {
      suggestions := suggestions + ["Found online solutions: " + results[0].url];
    }
  }

  // ---------------------------------------------------------------- the agent's two methods

  function Validate(inv: Invocation, input: Value): (e: Effects<bool>)
    ensures input.VDict? ==> e.call == Returned("process_status" in Keys(input.entries)
                                                && "error_message" in Keys(input.entries))
  {
    RequireFields(inv.now, input, ["process_status", "error_message"])
  }

  /** The "data" dict of a run. */
  datatype Recovery = Recovery(
    isStuck: bool, recoveryAttempted: bool, searchResults: seq<SearchResult>,
    suggestions: seq<string>, recovered: bool, analysis: Option<ErrorAnalysis>)

  function RecoveryValue(r: Recovery): Value {
    var base := [Entry("is_stuck", VBool(r.isStuck)), Entry("recovery_attempted", VBool(r.recoveryAttempted)),
                 Entry("search_results", VList(seq(|r.searchResults|, i requires 0 <= i < |r.searchResults|
                                                     => SearchResultValue(r.searchResults[i])))),
                 Entry("suggestions", StrList(r.suggestions)), Entry("recovered", VBool(r.recovered))];
    VDict(if r.isStuck then base + [Entry("error_analysis", if r.analysis.Some? then AnalysisValue(r.analysis.value) else VNone)]
          else base)
  }

  /** The analysis of a message, as a function of the message. */
  function AnalysisFor(message: Value): ErrorAnalysis {
    if message.VStr? then AnalysisOf(message.s) else AnalysisFailed
  }

  /** `items[:n]`. */
  function Prefix(items: seq<Value>, n: nat): (r: seq<Value>)
    ensures |r| == if |items| <= n then |items| else n
    ensures r == items[..|r|]
  {
    if |items| <= n then items else items[..n]
  }

  /** Why `_analyze_error` fails on a message that is not a string (CPython 3.11): a list has
      no `lower`, a dict cannot be sliced, anything else cannot be subscripted. */
  function AnalysisError(message: Value): string {
    match message
    case VList(_) => NoAttribute(message, "lower")
    case VDict(_) => "unhashable type: 'slice'"
    case _ => "'" + TpName(message) + "' object is not subscriptable"
  }

  /** What `_analyze_error` logs: the INFO line once the slice succeeds, then a WARNING when
      the analysis fails. */
  function AnalysisLogs(message: Value, now: int): (logs: seq<LogEntry>)
    ensures |logs| == if message.VList? then 2 else 1
    ensures logs[0].level == if message.VStr? || message.VList? then "INFO" else "WARNING"
  {
    match message
    case VStr(s) => [InfoLog(now, "Analyzing error: " + Take(s, 100))]
    case VList(items) =>
      [InfoLog(now, "Analyzing error: " + Str(VList(Prefix(items, 100)))),
       WarningLog(now, "Error analysis failed: " + AnalysisError(message))]
    case _ => [WarningLog(now, "Error analysis failed: " + AnalysisError(message))]
  }

  /** The recovery of a stuck process, by whether search is enabled. */
  function RecoveryFor(message: Value, enableSearch: bool, now: int): Recovery {
    if !enableSearch then Recovery(true, false, [], [], false, None)
    else
      var analysis := AnalysisFor(message);
      var results := SearchSolutions(message, now).0;
      var suggestions := Suggestions(analysis, results);
      Recovery(true, true, results, suggestions, |suggestions| > 0, Some(analysis))
  }

  /** The data of a healthy process. */
  const Healthy := Recovery(false, false, [], [], true, None)

  /** `execute`: a non-dict input fails at `input_data.get`; otherwise the defaults are a
      timeout of 30 seconds and search enabled. A process the check finds healthy reports
      `Healthy`; a stuck one reports the recovery for its message. */
  function Execute(parseIso: string -> Option<int>, inv: Invocation, input: Value): (e: Effects<StageResult>)
    ensures e.call.Returned?
    ensures input.VDict? ==> e.call.value.status == "success" && e.errored == []
    ensures input.VDict? ==>
      var d := input.entries;
      var stuck := IsProcessStuck(Get(d, "process_status").GetOr(VDict([])),
                                  Get(d, "timeout_seconds").GetOr(VInt(DefaultTimeout)), inv.now, parseIso).stuck;
      && e.call.value.data
         == Present(RecoveryValue(if stuck then RecoveryFor(Get(d, "error_message").GetOr(VStr("")),
                                                           Truthy(Get(d, "enable_search").GetOr(VBool(true))), inv.now)
                                  else Healthy))
      && e.call.value.message == if stuck then "Fallback monitoring completed" else "Process is operational"
    ensures !input.VDict? ==> e.call.value == ErrorResult(inv.agentId, NoAttribute(input, "get")) && |e.errored| == 1
  {
    var start := InfoLog(inv.now, "Starting fallback monitoring");
    if !input.VDict? then
      var m := NoAttribute(input, "get");
      var e := WithError(Returned(ErrorResult(inv.agentId, m)), inv.now, "Fallback execution failed: " + m, Some(m));
      e.(logged := [start] + e.logged)
    else
      var d := input.entries;
      var status := Get(d, "process_status").GetOr(VDict([]));
      var message := Get(d, "error_message").GetOr(VStr(""));
      var timeout := Get(d, "timeout_seconds").GetOr(VInt(DefaultTimeout));
      var enableSearch := Truthy(Get(d, "enable_search").GetOr(VBool(true)));
      var check := IsProcessStuck(status, timeout, inv.now, parseIso);
      if !check.stuck then
        Effects(Returned(StageResult("success", inv.agentId, "Process is operational",
                                     Present(RecoveryValue(Healthy)))),
                [start] + check.logged + [InfoLog(inv.now, "Process is healthy")], [])
      else
        var r := RecoveryFor(message, enableSearch, inv.now);
        var stuckLog := WarningLog(inv.now, "Process stuck detected: " + Str(message));
        var searchLogs :=
          if !enableSearch then []
          else AnalysisLogs(message, inv.now) + SearchSolutions(message, inv.now).1
               + [InfoLog(inv.now, "Generated " + NatToString(|r.suggestions|) + " suggestions"),
                  InfoLog(inv.now, "Found " + NatToString(|r.suggestions|) + " recovery suggestions")];
        Effects(Returned(StageResult("success", inv.agentId, "Fallback monitoring completed", Present(RecoveryValue(r)))),
                [start] + check.logged + [stuckLog] + searchLogs, [])
  }

  function FallbackStage(parseIso: string -> Option<int>): Stage {
    Stage("FallbackAgent", Validate, (inv, input) => Execute(parseIso, inv, input))
  }

  /** A healthy process: recovered, nothing attempted, no suggestions. A stuck one with search
      disabled: not recovered and nothing attempted. With search enabled recovery is always
      attempted, and it always counts as recovered, since every error type has four
      suggestions. */
  lemma RecoveryOutcomes(message: Value, now: int)
    ensures var r := RecoveryFor(message, false, now);
      r.isStuck && !r.recoveryAttempted && !r.recovered && r.suggestions == []
    ensures var r := RecoveryFor(message, true, now);
      && r.recoveryAttempted && r.recovered && |r.suggestions| >= 4
      && (|r.suggestions| == 5 <==> message.VStr?)
  {
  }
}
