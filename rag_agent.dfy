/** The RAG agent (`RAGAgent`): it creates a Gemini file-search store named after the
    document, uploads the document and polls the upload a bounded number of times, then asks
    Gemini for the document's metadata and for a sufficiency score.

    The Gemini client, the connectivity probe and the regular-expression engine are
    parameters: a `Backend` says what each client call answers, and a `Matcher` gives the
    integer captured by the first match of a pattern in a text. */
module RagAgent {
  import opened Values
  import opened Text
  import opened BaseAgent
  import Models

  // ---------------------------------------------------------------- the backend

  /** How a call into the Gemini client ended; `apiError` tells a `GoogleAPICallError` or
      `RetryError` apart from any other exception. */
  datatype ApiCall<+T> = Ok(value: T) | Failed(reason: string, apiError: bool)

  /** The two fixed prompts the agent sends. */
  datatype Query = MetadataQuery | ValidationQuery

  /** `online`: what `is_internet_available()` answers; `createStore`: the name of the store
      created for a display name; `poll(0)`: the done flag of the operation the upload request
      returns, `poll(k)`: the done flag `operations.get` reports at the k-th poll;
      `generate`: the response text to a prompt. */
  datatype Backend = Backend(
    online: bool,
    createStore: string -> ApiCall<string>,
    poll: nat -> ApiCall<bool>,
    generate: Query -> ApiCall<string>)

  /** `re.findall(pattern, text, re.IGNORECASE)[0]` as an integer, when there is a match. */
  type Matcher = (string, string) -> Option<nat>

  /** `self.log("ERROR", message)`: an ERROR line without an error entry. */
  function ErrorLine(now: int, message: string): LogEntry {
    LogEntry(now, "ERROR", message, [])
  }

  // ---------------------------------------------------------------- upload and polling

  const MaxRetries := 60
  const StoreMissing := "File Search Store not initialized"
  const TimedOut := "Upload operation timed out"

  /** `chunking_config or` the whitespace default of 200 tokens per chunk, 20 overlapping. */
  const DefaultMaxTokensPerChunk := 200
  const DefaultOverlapTokens := 20

  /** The default chunking is one `RAGConfig` accepts as it stands. */
  lemma DefaultChunkingAccepted(store: string)
    ensures Models.CheckRagConfig(Models.RagConfigInput(Some(store), Some("whitespace"),
              Some(DefaultMaxTokensPerChunk), Some(DefaultOverlapTokens), None))
            == Models.Valid(Models.RagConfig(store, Models.Whitespace, 200, 20, "text-embedding-004"))
  {
  }

  /** How the poll loop ended: the last reading or the exception that interrupted it, and the
      number of completed polls (`retry_count`). */
  datatype PollEnd = PollEnd(last: ApiCall<bool>, polls: nat)

  /** The poll loop from `count` completed polls on, the operation's done flag being `done`. */
  function PollLoop(poll: nat -> ApiCall<bool>, done: bool, count: nat): (p: PollEnd)
    requires count <= MaxRetries
    ensures count <= p.polls <= MaxRetries
    ensures p.last.Ok? ==> (p.last.value || p.polls == MaxRetries)
    ensures p.last.Ok? && p.polls > count ==> poll(p.polls) == p.last
    ensures p.last.Ok? && p.polls == count ==> p.last == Ok(done)
    decreases MaxRetries - count
  {
    if done || count == MaxRetries then PollEnd(Ok(done), count)
    else
      match poll(count + 1)
      case Failed(r, a) => PollEnd(Failed(r, a), count)
      case Ok(d) => PollLoop(poll, d, count + 1)
  }

  /** The dict `_upload_to_store` returns. */
  datatype Upload = Uploaded(fileName: Value) | UploadFailed(message: string)

  function UploadValue(u: Upload): Value {
    match u
    case Uploaded(f) => VDict([Entry("status", VStr("success")), Entry("message", VStr("File uploaded")),
                               Entry("file_name", f)])
    case UploadFailed(m) => VDict([Entry("status", VStr("error")), Entry("message", VStr(m))])
  }

  datatype UploadRun = UploadRun(result: Upload, polls: nat, logged: seq<LogEntry>)

  function ProgressLog(now: int, count: nat): LogEntry {
    InfoLog(now, "Upload in progress... (" + NatToString(count * 2) + "s)")
  }

  /** One progress line per completed poll. */
  function ProgressLogs(now: int, polls: nat): (r: seq<LogEntry>)
    ensures |r| == polls
  {
    seq(polls, i requires 0 <= i < polls => ProgressLog(now, i + 1))
  }

  lemma ProgressLogsSnoc(now: int, n: nat)
    ensures ProgressLogs(now, n + 1) == ProgressLogs(now, n) + [ProgressLog(now, n + 1)]
  {
  }

  function UploadStart(fileName: Value, now: int): LogEntry {
    InfoLog(now, "Uploading file: " + Str(fileName))
  }

  function UploadError(now: int, reason: string): LogEntry {
    ErrorLine(now, "Upload failed: " + reason)
  }

  /** `_upload_to_store`: every exception, the timeout included, is caught and returned as an
      error dict. */
  function UploadOutcome(store: Option<string>, fileName: Value, poll: nat -> ApiCall<bool>, now: int): (u: UploadRun)
    ensures u.polls <= MaxRetries
    ensures u.result.Uploaded? ==> u.result.fileName == fileName && poll(u.polls) == Ok(true)
    ensures store.None? ==> u == UploadRun(UploadFailed(StoreMissing), 0, [UploadError(now, StoreMissing)])
  {
    if store.None? then UploadRun(UploadFailed(StoreMissing), 0, [UploadError(now, StoreMissing)])
    else
      var start := UploadStart(fileName, now);
      match poll(0)
      case Failed(r, _) => UploadRun(UploadFailed(r), 0, [start, UploadError(now, r)])
      case Ok(done) =>
        var p := PollLoop(poll, done, 0);
        var progress := [start] + ProgressLogs(now, p.polls);
        match p.last
        case Failed(r, _) => UploadRun(UploadFailed(r), p.polls, progress + [UploadError(now, r)])
        case Ok(d) =>
          if d then UploadRun(Uploaded(fileName), p.polls, progress + [InfoLog(now, "File uploaded successfully")])
          else UploadRun(UploadFailed(TimedOut), p.polls, progress + [UploadError(now, TimedOut)])
  }

  lemma {:induction false} PollLoopReaches(poll: nat -> ApiCall<bool>, count: nat, j: nat)
    requires count < j <= MaxRetries
    requires forall i :: count < i < j ==> poll(i) == Ok(false)
    requires poll(j) != Ok(false) || j == MaxRetries
    ensures PollLoop(poll, false, count) == match poll(j)
                                             case Failed(r, a) => PollEnd(Failed(r, a), j - 1)
                                             case Ok(d) => PollEnd(Ok(d), j)
    decreases j - count
  {
    if count + 1 < j {
      assert poll(count + 1) == Ok(false);
      PollLoopReaches(poll, count + 1, j);
    }
  }

  /** The loop stops at the first reading that is not "not done yet", or after 60 polls:
      with `j` that reading's index, a done operation is uploaded after exactly `j` polls, an
      exception is returned as the error message, and an operation never done times out after
      60 polls. */
  lemma UploadOutcomes(store: string, fileName: Value, poll: nat -> ApiCall<bool>, now: int, j: nat)
    requires j <= MaxRetries
    requires forall i :: 0 <= i < j ==> poll(i) == Ok(false)
    requires poll(j) != Ok(false) || j == MaxRetries
    ensures var u := UploadOutcome(Some(store), fileName, poll, now);
      match poll(j)
      case Failed(r, _) => u.result == UploadFailed(r) && u.polls == if j == 0 then 0 else j - 1
      case Ok(d) =>
        if d then u.result == Uploaded(fileName) && u.polls == j
        else u.result == UploadFailed(TimedOut) && u.polls == MaxRetries
  {
    if j > 0 {
      assert poll(0) == Ok(false);
      PollLoopReaches(poll, 0, j);
    }
  }

  /** `_upload_to_store`, with its poll loop. */
  method UploadToStore(store: Option<string>, fileName: Value, poll: nat -> ApiCall<bool>, now: int)
    returns (result: Upload, polls: nat, logged: seq<LogEntry>)
    ensures UploadRun(result, polls, logged) == UploadOutcome(store, fileName, poll, now)
  {
    if store.None? {
      return UploadFailed(StoreMissing), 0, [UploadError(now, StoreMissing)];
    }
    var start := UploadStart(fileName, now);
    logged := [start];
    var operation := poll(0);
    if operation.Failed? {
      return UploadFailed(operation.reason), 0, logged + [UploadError(now, operation.reason)];
    }
    var done := operation.value;
    var retryCount := 0;
    while !done && retryCount < MaxRetries
      invariant retryCount <= MaxRetries
      invariant PollLoop(poll, done, retryCount) == PollLoop(poll, operation.value, 0)
      invariant logged == [start] + ProgressLogs(now, retryCount)
      decreases MaxRetries - retryCount
    {
      var next := poll(retryCount + 1);
      if next.Failed? {
        assert PollLoop(poll, operation.value, 0) == PollEnd(next, retryCount);
        return UploadFailed(next.reason), retryCount, logged + [UploadError(now, next.reason)];
      }
      done := next.value;
      retryCount := retryCount + 1;
      ProgressLogsSnoc(now, retryCount - 1);
      logged := logged + [ProgressLog(now, retryCount)];
    }
    assert PollLoop(poll, operation.value, 0) == PollEnd(Ok(done), retryCount);
    polls := retryCount;
    if !done {
      result := UploadFailed(TimedOut);
      logged := logged + [UploadError(now, TimedOut)];
    } else {
      result := Uploaded(fileName);
      logged := logged + [InfoLog(now, "File uploaded successfully")];
    }
  }

  // ---------------------------------------------------------------- reading the responses

  const ScorePatterns: seq<string> :=
    ["(\\d+)\\s*%", "(\\d+)\\s*/\\s*100", "score[:\\s]+(\\d+)", "completeness[:\\s]+(\\d+)"]

  const PositiveWords: seq<string> := ["complete", "detailed", "comprehensive"]
  const NegativeWords: seq<string> := ["insufficient", "lacking", "missing"]

  /** `any(word in s for word in words)`. */
  predicate AnyIn(s: string, words: seq<string>) {
    exists i :: 0 <= i < |words| && Contains(s, words[i])
  }

  /** `min(100, max(0, n))`. */
  function Clamp(n: int): (r: int)
    ensures 0 <= r <= 100
    ensures 0 <= n <= 100 ==> r == n
    ensures n < 0 ==> r == 0
    ensures n > 100 ==> r == 100
  {
    var atLeastZero := if n < 0 then 0 else n;
    if atLeastZero > 100 then 100 else atLeastZero
  }

  /** The keyword scoring used when no pattern matches. */
  function KeywordScore(lower: string): int {
    50 + (if AnyIn(lower, PositiveWords) then 20 else 0) - (if AnyIn(lower, NegativeWords) then 20 else 0)
  }

  /** The pattern loop of `_extract_score_from_response` over the patterns still to try. */
  function ScoreFrom(text: string, find: Matcher, patterns: seq<string>): (r: int)
    ensures 0 <= r <= 100
  {
    if patterns == [] then Clamp(KeywordScore(Lower(text)))
    else
      match find(patterns[0], text)
      case Some(n) => Clamp(n)
      case None => ScoreFrom(text, find, patterns[1..])
  }

  /** `_extract_score_from_response`. */
  function ExtractScore(text: string, find: Matcher): (r: int)
    ensures 0 <= r <= 100
  {
    ScoreFrom(text, find, ScorePatterns)
  }

  lemma {:induction false} FirstMatchFrom(text: string, find: Matcher, patterns: seq<string>, i: nat)
    requires i < |patterns| && find(patterns[i], text).Some?
    requires forall j :: 0 <= j < i ==> find(patterns[j], text).None?
    ensures ScoreFrom(text, find, patterns) == Clamp(find(patterns[i], text).value)
  {
    if i > 0 {
      assert find(patterns[0], text).None?;
      assert forall j :: 0 <= j < i - 1 ==> patterns[1..][j] == patterns[j + 1];
      FirstMatchFrom(text, find, patterns[1..], i - 1);
    }
  }

  lemma {:induction false} NoMatchFrom(text: string, find: Matcher, patterns: seq<string>)
    requires forall j :: 0 <= j < |patterns| ==> find(patterns[j], text).None?
    ensures ScoreFrom(text, find, patterns) == Clamp(KeywordScore(Lower(text)))
  {
    if patterns != [] {
      assert find(patterns[0], text).None?;
      assert forall j :: 0 <= j < |patterns| - 1 ==> patterns[1..][j] == patterns[j + 1];
      NoMatchFrom(text, find, patterns[1..]);
    }
  }

  /** The patterns are tried in their fixed order and the first that matches decides,
      clamped to [0, 100]. */
  lemma FirstPatternWins(text: string, find: Matcher, i: nat)
    requires i < |ScorePatterns| && find(ScorePatterns[i], text).Some?
    requires forall j :: 0 <= j < i ==> find(ScorePatterns[j], text).None?
    ensures ExtractScore(text, find) == Clamp(find(ScorePatterns[i], text).value)
  {
    FirstMatchFrom(text, find, ScorePatterns, i);
  }

  /** Without a match the score is 50, plus 20 for a positive word, minus 20 for a negative
      word: one of 30, 50 and 70. */
  lemma KeywordFallback(text: string, find: Matcher)
    requires forall j :: 0 <= j < |ScorePatterns| ==> find(ScorePatterns[j], text).None?
    ensures var r := ExtractScore(text, find); var lower := Lower(text);
      && r in {30, 50, 70}
      && (r == 70 <==> AnyIn(lower, PositiveWords) && !AnyIn(lower, NegativeWords))
      && (r == 30 <==> !AnyIn(lower, PositiveWords) && AnyIn(lower, NegativeWords))
  {
    NoMatchFrom(text, find, ScorePatterns);
  }

  /** `_extract_number`: the first match of "<digits> <keyword>", or the default. */
  function ExtractNumber(text: string, keyword: string, default: nat, find: Matcher): nat {
    match find("(\\d+)\\s+" + keyword, text)
    case Some(n) => n
    case None => default
  }

  const TopicKeywords: seq<string> := ["process", "procedure", "policy", "requirement", "step", "guideline"]
  const MaxTopics := 5

  /** `_extract_topics`: the topic keywords occurring in the text, in list order, at most five. */
  function Topics(text: string): seq<string> {
    var found := WordsIn(Lower(text), TopicKeywords);
    if |found| <= MaxTopics then found else found[..MaxTopics]
  }

  /** The topics are an in-order selection of the keyword list, at most five, holding each
      keyword that occurs in the text, except that "guideline", the sixth, is cut when the
      five before it all occur. */
  lemma TopicsSpec(text: string)
    ensures var t := Topics(text); var lower := Lower(text);
      && |t| <= MaxTopics
      && Subsequence(t, TopicKeywords)
      && forall k :: k in t <==>
           && k in TopicKeywords && Contains(lower, k)
           && (k == "guideline" ==> exists i :: 0 <= i < MaxTopics && !Contains(lower, TopicKeywords[i]))
  {
    var lower := Lower(text);
    var five := TopicKeywords[..MaxTopics];
    assert TopicKeywords == five + ["guideline"];
    assert "guideline" !in five;
    var rest := WordsIn(lower, five);
    WordsInSpec(lower, TopicKeywords);
    WordsInSpec(lower, five);
    var found := WordsIn(lower, TopicKeywords);
    assert found == if Contains(lower, "guideline") then rest + ["guideline"] else rest;
    if |found| > MaxTopics {
      assert Topics(text) == rest;
      SubsequenceOfPrefix(rest, TopicKeywords, MaxTopics);
      assert forall i :: 0 <= i < MaxTopics ==> Contains(lower, five[i]);
    }
  }

  /** `_extract_topics`, with its loop over the keyword list. */
  method ExtractTopics(text: string) returns (topics: seq<string>)
    ensures topics == Topics(text)
  {
    var lower := Lower(text);
    topics := [];
    for i := 0 to |TopicKeywords|
      invariant topics == WordsIn(lower, TopicKeywords[..i])
    {
      if Contains(lower, TopicKeywords[i]) {
        topics := topics + [TopicKeywords[i]];
      }
      assert TopicKeywords[..i + 1][..i] == TopicKeywords[..i];
    }
    assert TopicKeywords[..|TopicKeywords|] == TopicKeywords;
    if |topics| > MaxTopics {
      topics := topics[..MaxTopics];
    }
  }

  /** "עברית" and "עברי", the words the language test looks for. */
  const Hebrew := "\U{05E2}\U{05D1}\U{05E8}\U{05D9}\U{05EA}"
  const HebrewStem := "\U{05E2}\U{05D1}\U{05E8}\U{05D9}"

  function Language(text: string): string {
    if Contains(text, Hebrew) || Contains(text, HebrewStem) then "he" else "en"
  }

  /** The first test is subsumed by the second: the language is Hebrew exactly when the
      shorter word occurs. */
  lemma LanguageIff(text: string)
    ensures Language(text) == "he" <==> Contains(text, HebrewStem)
  {
    if Contains(text, Hebrew) {
      var i :| 0 <= i <= |text| - |Hebrew| && OccursAt(text, Hebrew, i);
      assert text[i..i + |HebrewStem|] == text[i..i + |Hebrew|][..|HebrewStem|];
      assert OccursAt(text, HebrewStem, i);
    }
  }

  /** The dict `_extract_metadata` returns; `MetadataFailed` is its handler's dict. */
  datatype Metadata =
    | Metadata(totalSections: nat, keyTopics: seq<string>, estimatedWords: nat, language: string, analysis: string)
    | MetadataFailed

  function MetadataValue(m: Metadata): Value {
    match m
    case Metadata(sections, topics, words, language, analysis) =>
      VDict([Entry("total_sections", VInt(sections)), Entry("key_topics", StrList(topics)),
             Entry("estimated_words", VInt(words)), Entry("language", VStr(language)),
             Entry("analysis", VStr(analysis))])
    case MetadataFailed =>
      VDict([Entry("total_sections", VInt(0)), Entry("key_topics", StrList([])),
             Entry("estimated_words", VInt(0)), Entry("language", VStr("unknown"))])
  }

  /** `metadata.get("total_sections", 0)` and `metadata.get("key_topics", [])`. */
  function SectionsOf(m: Metadata): nat {
    if m.Metadata? then m.totalSections else 0
  }

  function TopicsOf(m: Metadata): seq<string> {
    if m.Metadata? then m.keyTopics else []
  }

  /** `_extract_metadata` given the response to the metadata prompt. */
  function MetadataOf(response: ApiCall<string>, find: Matcher, now: int): (r: (Metadata, seq<LogEntry>))
    ensures response.Failed? <==> r.0 == MetadataFailed
    ensures response.Ok? ==> && r.0.keyTopics == Topics(response.value)
                             && r.0.analysis == Take(response.value, 500) && |r.0.analysis| <= 500
                             && r.0.language == Language(response.value)
  {
    var start := InfoLog(now, "Extracting document metadata");
    match response
    case Failed(e, _) => (MetadataFailed, [start, WarningLog(now, "Metadata extraction failed: " + e)])
    case Ok(text) =>
      (Metadata(ExtractNumber(text, "section", 3, find), Topics(text), ExtractNumber(text, "word", 1000, find),
                Language(text), Take(text, 500)),
       [start, InfoLog(now, "Metadata extracted successfully")])
  }

  /** A response without "<digits> section" or "<digits> word" counts 3 sections and 1000
      words. */
  lemma MetadataDefaults(text: string, find: Matcher, now: int)
    requires find("(\\d+)\\s+section", text).None? && find("(\\d+)\\s+word", text).None?
    ensures var m := MetadataOf(Ok(text), find, now).0; m.totalSections == 3 && m.estimatedWords == 1000
  {
    assert "(\\d+)\\s+" + "section" == "(\\d+)\\s+section";
    assert "(\\d+)\\s+" + "word" == "(\\d+)\\s+word";
  }

  /** The dict `_validate_sufficiency` returns (grounding sources are not modelled). */
  datatype Sufficiency = Sufficiency(isSufficient: bool, score: int, analysis: string)

  const SufficiencyThreshold := 60

  /** `_validate_sufficiency` given the response to the validation prompt. */
  function SufficiencyOf(response: ApiCall<string>, find: Matcher, now: int): (r: (Sufficiency, seq<LogEntry>))
    ensures 0 <= r.0.score <= 100
    ensures r.0.isSufficient <==> r.0.score >= SufficiencyThreshold
    ensures response.Failed? ==> r.0 == Sufficiency(false, 0, response.reason)
    ensures response.Ok? ==> r.0.analysis == response.value
  {
    var start := InfoLog(now, "Validating document sufficiency");
    match response
    case Failed(e, _) => (Sufficiency(false, 0, e), [start, ErrorLine(now, "Validation failed: " + e)])
    case Ok(text) =>
      var score := ExtractScore(text, find);
      (Sufficiency(score >= SufficiencyThreshold, score, text),
       [start, InfoLog(now, "Sufficiency validation completed: score=" + IntToString(score))])
  }

  // ---------------------------------------------------------------- the agent's two methods

  /** `validate_input`. */
  function Validate(inv: Invocation, input: Value): (e: Effects<bool>)
    ensures input.VDict? ==> e.call == Returned("file_path" in Keys(input.entries) && "file_name" in Keys(input.entries))
  {
    RequireFields(inv.now, input, ["file_path", "file_name"])
  }

  /** The text of the NameError both prompts raise: `types` is used but never imported. */
  const TypesUnbound := "name 'types' is not defined"

  /** A prompt to Gemini. As written (`typesImported` false) building the request raises a
      NameError before Gemini is called. */
  function Generate(b: Backend, typesImported: bool, q: Query): ApiCall<string> {
    if typesImported then b.generate(q) else Failed(TypesUnbound, false)
  }

  /** What the extraction produced once the store exists. */
  datatype Extraction = Extraction(upload: UploadRun, metadata: Metadata, metadataLogs: seq<LogEntry>,
                                   sufficiency: Sufficiency, sufficiencyLogs: seq<LogEntry>)

  /** Upload, metadata and sufficiency, in that order. `execute` passes no chunking
      configuration, so the upload always uses the default. */
  function ExtractionOf(typesImported: bool, b: Backend, find: Matcher, store: string, fileName: Value, now: int): Extraction {
    var m := MetadataOf(Generate(b, typesImported, MetadataQuery), find, now);
    var s := SufficiencyOf(Generate(b, typesImported, ValidationQuery), find, now);
    Extraction(UploadOutcome(Some(store), fileName, b.poll, now), m.0, m.1, s.0, s.1)
  }

  /** As written, neither prompt reaches Gemini: the metadata is the handler's dict and the
      score is 0, whatever the document. */
  lemma AsWrittenNothingExtracted(b: Backend, find: Matcher, store: string, fileName: Value, now: int)
    ensures var x := ExtractionOf(false, b, find, store, fileName, now);
      && x.metadata == MetadataFailed
      && x.sufficiency == Sufficiency(false, 0, TypesUnbound)
  {
  }

  /** With `types` imported the score is read from Gemini's answer and the threshold decides
      sufficiency. */
  lemma CorrectedExtraction(b: Backend, find: Matcher, store: string, fileName: Value, now: int)
    requires b.generate(ValidationQuery).Ok?
    ensures var x := ExtractionOf(true, b, find, store, fileName, now);
      var score := ExtractScore(b.generate(ValidationQuery).value, find);
      && x.sufficiency.score == score
      && (x.sufficiency.isSufficient <==> score >= SufficiencyThreshold)
  {
  }

  function ResultData(store: string, x: Extraction): Value {
    VDict([
      Entry("file_search_store", VStr(store)),
      Entry("document_metadata", MetadataValue(x.metadata)),
      Entry("extracted_info", VDict([
        Entry("analysis", VStr(x.sufficiency.analysis)),
        Entry("sections", VInt(SectionsOf(x.metadata))),
        Entry("key_topics", StrList(TopicsOf(x.metadata)))])),
      Entry("sufficiency_score", VInt(x.sufficiency.score))])
  }

  const NoInternet := "No internet connection available."
  const Unavailable := "Gemini API is currently unavailable: "
  const Extracted := "Document extracted and indexed successfully"

  /** `execute`: it fails before any logging when offline or when a field is missing, and
      when the store cannot be created; otherwise it succeeds whatever the upload, metadata
      and sufficiency steps report, since each of them catches its own exceptions. */
  function ExecuteWith(typesImported: bool, b: Backend, find: Matcher, inv: Invocation, input: Value): (e: Effects<StageResult>)
    ensures e.errored == []
    ensures !b.online ==> e == Quiet(Raised(NoInternet))
    ensures e.call.Returned? ==> && b.online && e.call.value.status == "success"
                                 && e.call.value.message == Extracted && e.call.value.agentId == inv.agentId
    ensures e.call.Returned? ==>
      && Subscript(input, "file_name").Returned?
      && var fileName := Subscript(input, "file_name").value;
         && b.createStore(Str(fileName)).Ok?
         && var store := b.createStore(Str(fileName)).value;
            e.call.value.data == Present(ResultData(store, ExtractionOf(typesImported, b, find, store, fileName, inv.now)))
    ensures (b.online && Subscript(input, "file_path").Returned? && Subscript(input, "file_name").Returned?)
      ==> (e.call.Returned? <==> b.createStore(Str(Subscript(input, "file_name").value)).Ok?)
    ensures (b.online && Subscript(input, "file_path").Returned? && Subscript(input, "file_name").Returned?
             && b.createStore(Str(Subscript(input, "file_name").value)).Failed?)
      ==> var f := b.createStore(Str(Subscript(input, "file_name").value));
          e.call == Raised(if f.apiError then Unavailable + f.reason else f.reason)
  {
    if !b.online then Quiet(Raised(NoInternet))
    else
      match Subscript(input, "file_path")
      case Raised(m) => Quiet(Raised(m))
      case Returned(_) =>
        match Subscript(input, "file_name")
        case Raised(m) => Quiet(Raised(m))
        case Returned(fileName) =>
          var now := inv.now;
          var name := Str(fileName);
          var head := [InfoLog(now, "Starting RAG extraction for " + name),
                       InfoLog(now, "Creating File Search Store: " + name)];
          match b.createStore(name)
          case Failed(r, api) =>
            Effects(Raised(if api then Unavailable + r else r), head + [ErrorLine(now, "Failed to create store: " + r)], [])
          case Ok(store) =>
            var x := ExtractionOf(typesImported, b, find, store, fileName, now);
            Effects(Returned(StageResult("success", inv.agentId, Extracted, Present(ResultData(store, x)))),
                    head + [InfoLog(now, "Store created: " + store)] + x.upload.logged + x.metadataLogs
                    + x.sufficiencyLogs + [InfoLog(now, "RAG extraction completed successfully")],
                    [])
  }

  /** `execute` with `types` imported. */
  function Execute(b: Backend, find: Matcher, inv: Invocation, input: Value): Effects<StageResult> {
    ExecuteWith(true, b, find, inv, input)
  }

  /** The agent as a stage of a chain or pipeline: as written when `typesImported` is false. */
  function RagStage(typesImported: bool, b: Backend, find: Matcher): Stage {
    Stage("RAGAgent", Validate, (inv, input) => ExecuteWith(typesImported, b, find, inv, input))
  }

  /** The upload's result never reaches the caller: two backends that differ only in how the
      upload polls give the same result. */
  lemma UploadOutcomeIgnored(typesImported: bool, b: Backend, poll: nat -> ApiCall<bool>, find: Matcher,
                             inv: Invocation, input: Value)
    ensures ExecuteWith(typesImported, b, find, inv, input).call
         == ExecuteWith(typesImported, b.(poll := poll), find, inv, input).call
  {
  }
}
