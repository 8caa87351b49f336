/** The assembly agent (`MindsDBAgent`): from an agent name, instructions, a file source, a
    file-search store and a sufficiency score it builds the agent configuration, an n8n flow
    and three export texts, and tries to register a knowledge base with MindsDB.

    The clock, the HTTP call to MindsDB and the text `json.dumps` produces are parameters. */
module MindsdbAgent {
  import opened Values
  import opened Text
  import opened BaseAgent
  import Models

  // ---------------------------------------------------------------- validate_input

  const RequiredFields: seq<string> :=
    ["agent_name", "instructions", "file_source", "file_search_store", "sufficiency_score"]

  const LowScore: real := 50.0

  /** `validate_input`: every required field must be present; a score below 50 logs a
      warning but does not fail the validation. */
  function Validate(inv: Invocation, input: Value): (e: Effects<bool>)
    ensures e.errored == []
    ensures input.VDict? ==>
      var score := Get(input.entries, "sufficiency_score");
      && (e.call == Returned(false) <==> exists i :: 0 <= i < |RequiredFields| && RequiredFields[i] !in Keys(input.entries))
      && (e.call == Returned(true) <==> (forall i :: 0 <= i < |RequiredFields| ==> RequiredFields[i] in Keys(input.entries))
                                        && score.Some? && AsNumber(score.value).Some?)
      && (e.call == Returned(true) ==> score.Some? && (|e.logged| == 1 <==> AsNumber(score.value).value < LowScore))
  {
    assert RequiredFields[4] == "sufficiency_score";
    var required := RequireFields(inv.now, input, RequiredFields);
    if required.call != Returned(true) then required
    else if !input.VDict? then Quiet(Raised(NoAttribute(input, "get")))
    else
      var score := Get(input.entries, "sufficiency_score").GetOr(VInt(0));
      match AsNumber(score)
      case None => Quiet(Raised("'<' not supported between instances of '" + TpName(score) + "' and 'int'"))
      case Some(n) =>
        if n < LowScore then Effects(Returned(true), [WarningLog(inv.now, "Document may not have sufficient information")], [])
        else Quiet(Returned(true))
  }

  // ---------------------------------------------------------------- capabilities

  const BaseCapabilities: seq<string> := ["question_answering", "document_analysis"]

  /** `keywords_to_capabilities`, in insertion order. */
  const CapabilityMap: seq<(string, string)> := [
    ("summarize", "summarization"), ("extract", "extraction"), ("categorize", "categorization"),
    ("generate", "content_generation"), ("translate", "translation"), ("analyze", "analysis"),
    ("recommend", "recommendation")]

  /** The capabilities of `pairs` whose keyword occurs in `lower`, in map order. */
  function MappedIn(lower: string, pairs: seq<(string, string)>): (r: seq<string>)
    ensures |r| <= |pairs|
  {
    if pairs == [] then []
    else
      var last := pairs[|pairs| - 1];
      MappedIn(lower, pairs[..|pairs| - 1]) + (if Contains(lower, last.0) then [last.1] else [])
  }

  /** The capability list before `list(set(...))`: the two base entries, then the mapped ones. */
  function Capabilities(instructions: string): seq<string> {
    BaseCapabilities + MappedIn(Lower(instructions), CapabilityMap)
  }

  lemma {:induction false} MappedInSpec(lower: string, pairs: seq<(string, string)>)
    requires forall i, j :: 0 <= i < j < |pairs| ==> pairs[i].1 != pairs[j].1
    ensures var m := MappedIn(lower, pairs);
      && NoDuplicates(m)
      && (forall i :: 0 <= i < |pairs| ==> (pairs[i].1 in m <==> Contains(lower, pairs[i].0)))
      && (forall c :: c in m ==> exists i :: 0 <= i < |pairs| && pairs[i].1 == c)
  {
    if pairs != [] {
      var init := pairs[..|pairs| - 1];
      var last := pairs[|pairs| - 1];
      MappedInSpec(lower, init);
      var m0 := MappedIn(lower, init);
      assert forall i :: 0 <= i < |init| ==> init[i] == pairs[i];
      assert last.1 !in m0;
    }
  }

  /** The capability names are pairwise different. */
  lemma CapabilityNamesDistinct()
    ensures NoDuplicates(BaseCapabilities + seq(|CapabilityMap|, i requires 0 <= i < |CapabilityMap| => CapabilityMap[i].1))
  {
  }

  /** The mapped capability names differ from each other and from the base ones. */
  lemma MappedNamesFresh()
    ensures forall i, j :: 0 <= i < j < |CapabilityMap| ==> CapabilityMap[i].1 != CapabilityMap[j].1
    ensures forall i :: 0 <= i < |CapabilityMap| ==> CapabilityMap[i].1 !in BaseCapabilities
  {
    var all := BaseCapabilities + seq(|CapabilityMap|, i requires 0 <= i < |CapabilityMap| => CapabilityMap[i].1);
    CapabilityNamesDistinct();
    forall i | 0 <= i < |CapabilityMap| ensures CapabilityMap[i].1 !in BaseCapabilities {
      assert all[i + 2] == CapabilityMap[i].1;
      assert all[0] != all[i + 2] && all[1] != all[i + 2];
    }
    forall i, j | 0 <= i < j < |CapabilityMap| ensures CapabilityMap[i].1 != CapabilityMap[j].1 {
      assert all[i + 2] == CapabilityMap[i].1 && all[j + 2] == CapabilityMap[j].1;
    }
  }

  /** Two duplicate-free lists with no common entry concatenate to a duplicate-free list. */
  lemma NoDuplicatesAppend<T>(a: seq<T>, b: seq<T>)
    requires NoDuplicates(a) && NoDuplicates(b)
    requires forall x :: x in b ==> x !in a
    ensures NoDuplicates(a + b)
  {
    forall i, j | 0 <= i < j < |a + b| ensures (a + b)[i] != (a + b)[j] {
      if j >= |a| && i < |a| {
        assert (a + b)[j] in b;
      }
    }
  }

  /** `_infer_capabilities`: both base capabilities always; a mapped capability exactly when
      its keyword occurs in the lowercased instructions; no entry twice (so `list(set(...))`
      only reorders the list). */
  lemma CapabilitiesSpec(instructions: string)
    ensures var caps := Capabilities(instructions);
      && "question_answering" in caps && "document_analysis" in caps
      && (forall i :: 0 <= i < |CapabilityMap| ==>
            (CapabilityMap[i].1 in caps <==> Contains(Lower(instructions), CapabilityMap[i].0)))
      && NoDuplicates(caps)
  {
    MappedNamesFresh();
    var lower := Lower(instructions);
    MappedInSpec(lower, CapabilityMap);
    var m := MappedIn(lower, CapabilityMap);
    forall c | c in m ensures c !in BaseCapabilities {
      var i :| 0 <= i < |CapabilityMap| && CapabilityMap[i].1 == c;
    }
    NoDuplicatesAppend(BaseCapabilities, m);
    assert Capabilities(instructions) == BaseCapabilities + m;
  }

  /** `_infer_capabilities`, with its loop over the map. */
  method InferCapabilities(instructions: string) returns (capabilities: seq<string>)
    ensures capabilities == Capabilities(instructions)
  {
    capabilities := BaseCapabilities;
    var lower := Lower(instructions);
    for i := 0 to |CapabilityMap|
      invariant capabilities == BaseCapabilities + MappedIn(lower, CapabilityMap[..i])
    {
      var (keyword, capability) := CapabilityMap[i];
      if Contains(lower, keyword) {
        capabilities := capabilities + [capability];
      }
      assert CapabilityMap[..i + 1][..i] == CapabilityMap[..i];
    }
    assert CapabilityMap[..|CapabilityMap|] == CapabilityMap;
  }

  // ---------------------------------------------------------------- the configuration

  /** `_generate_id`: the last eight digits of the clock in milliseconds. */
  function GenerateId(millis: nat): (id: string)
    ensures 1 <= |id| <= 8
    ensures forall i :: 0 <= i < |id| ==> '0' <= id[i] <= '9'
  {
    TakeLast(NatToString(millis), 8)
  }

  const DefaultModel := "gemini-2.5-flash"
  const DefaultTemperature: real := 0.7
  const DefaultTopK := 10
  const DefaultMaxOutputTokens := 2048

  function DefaultModelConfig(): Value {
    VDict([Entry("model", VStr(DefaultModel)), Entry("temperature", VFloat("0.7", DefaultTemperature)),
           Entry("top_k", VInt(DefaultTopK)), Entry("max_output_tokens", VInt(DefaultMaxOutputTokens))])
  }

  /** The fixed chunking settings of every configuration. */
  const ChunkingStrategy := "whitespace"
  const MaxTokensPerChunk := 200
  const OverlapTokens := 20
  const EmbeddingModel := "text-embedding-004"

  /** The configuration dict; `instructions` is a string, since the capability inference
      lowercases it. */
  datatype AgentConfig = AgentConfig(
    id: string, name: Value, instructions: string, fileSource: Value, fileSearchStore: Value,
    modelConfig: Value, sufficiencyScore: Value, capabilities: seq<string>)

  function RagConfigValue(c: AgentConfig): Value {
    VDict([Entry("file_search_store", c.fileSearchStore), Entry("chunking_strategy", VStr(ChunkingStrategy)),
           Entry("max_tokens_per_chunk", VInt(MaxTokensPerChunk)), Entry("overlap_tokens", VInt(OverlapTokens)),
           Entry("embedding_model", VStr(EmbeddingModel))])
  }

  function ConfigValue(c: AgentConfig): Value {
    VDict([
      Entry("id", VStr(c.id)), Entry("name", c.name), Entry("type", VStr("gemini_rag_agent")),
      Entry("status", VStr("ready")), Entry("instructions", VStr(c.instructions)),
      Entry("file_source", c.fileSource), Entry("rag_config", RagConfigValue(c)),
      Entry("model_config", c.modelConfig),
      Entry("metadata", VDict([Entry("sufficiency_score", c.sufficiencyScore),
                               Entry("created_by", VStr("agent_builder")), Entry("version", VStr("1.0"))])),
      Entry("capabilities", StrList(c.capabilities))])
  }

  /** `_create_agent_config`: it fails only when the instructions are not a string. */
  function CreateAgentConfig(name: Value, instructions: Value, fileSource: Value, fileSearchStore: Value,
                             score: Value, modelConfig: Value, millis: nat): (r: Call<AgentConfig>)
    ensures r.Returned? <==> instructions.VStr?
    ensures r.Raised? ==> r.reason == NoAttribute(instructions, "lower")
    ensures r.Returned? ==>
      && StartsWith(r.value.id, "agent_") && |r.value.id| <= 14
      && r.value.instructions == instructions.s
      && r.value.capabilities == Capabilities(instructions.s)
      && r.value.modelConfig == (if Truthy(modelConfig) then modelConfig else DefaultModelConfig())
      && r.value.sufficiencyScore == score && r.value.fileSearchStore == fileSearchStore
  {
    var id := "agent_" + GenerateId(millis);
    var model := if Truthy(modelConfig) then modelConfig else DefaultModelConfig();
    if !instructions.VStr? then Raised(NoAttribute(instructions, "lower"))
    else Returned(AgentConfig(id, name, instructions.s, fileSource, fileSearchStore, model, score,
                              Capabilities(instructions.s)))
  }

  /** The settings a configuration carries are ones `RAGConfig` and `ModelConfig` accept. */
  lemma ConfigSettingsAccepted(store: string)
    ensures Models.CheckRagConfig(Models.RagConfigInput(Some(store), Some(ChunkingStrategy),
              Some(MaxTokensPerChunk), Some(OverlapTokens), Some(EmbeddingModel))).Valid?
    ensures Models.CheckModelConfig(Models.ModelConfigInput(Some(DefaultModel), Some(DefaultTemperature), Some(DefaultTopK),
              Some(DefaultMaxOutputTokens))).Valid?
  {
  }

  // ---------------------------------------------------------------- encoding as JSON

  /** The type name of the first value, in encoding order, that `json.dumps` rejects. */
  function Unencodable(v: Value): Option<string>
    decreases v
  {
    match v
    case VTime(_) => Some(TypeName(v))
    case VObject(_, _, _) => Some(TypeName(v))
    case VList(items) => UnencodableItems(items)
    case VDict(entries) => UnencodableEntries(entries)
    case _ => None
  }

  function UnencodableItems(items: seq<Value>): Option<string>
    decreases items
  {
    if items == [] then None
    else if Unencodable(items[0]).Some? then Unencodable(items[0])
    else UnencodableItems(items[1..])
  }

  function UnencodableEntries(entries: seq<Entry>): Option<string>
    decreases entries
  {
    if entries == [] then None
    else if Unencodable(entries[0].val).Some? then Unencodable(entries[0].val)
    else UnencodableEntries(entries[1..])
  }

  /** The backend of an execution: the clock (milliseconds and ISO text), MindsDB's answer to
      a registration request, and the text `json.dumps` gives for a value it can encode. The
      request body of the n8n flow is dumped without indentation and the exports with
      `indent=2`; one function stands for both. The one ISO text also stands for each later
      `_get_timestamp()` reading, such as the export date. */
  datatype Environment = Environment(
    millis: nat, timestamp: string, register: Value -> Registration, dumps: Value -> string)

  /** `json.dumps`: the text, or the TypeError for the first value it cannot encode. */
  function Dumps(env: Environment, v: Value): (r: Call<string>)
    ensures r.Returned? <==> Unencodable(v).None?
  {
    match Unencodable(v)
    case Some(t) => Raised("Object of type " + t + " is not JSON serializable")
    case None => Returned(env.dumps(v))
  }

  // ---------------------------------------------------------------- the n8n flow

  /** `_create_n8n_flow`: it reads three settings from the model configuration, and fails when
      one is missing or the configuration cannot be subscripted, and when the request body
      cannot be encoded. */
  function N8nFlow(c: AgentConfig, env: Environment): (r: Call<Value>)
    ensures Subscript(c.modelConfig, "temperature").Raised? ==> r == Raised(Subscript(c.modelConfig, "temperature").reason)
  {
    match Subscript(c.modelConfig, "temperature")
    case Raised(m) => Raised(m)
    case Returned(temperature) =>
      match Subscript(c.modelConfig, "top_k")
      case Raised(m) => Raised(m)
      case Returned(topK) =>
        match Subscript(c.modelConfig, "max_output_tokens")
        case Raised(m) => Raised(m)
        case Returned(maxTokens) =>
          var body := VDict([
            Entry("contents", VList([VDict([Entry("parts", VList([VDict([Entry("text", VStr("{{ $json.query }}"))])]))])])),
            Entry("systemInstruction", VStr(c.instructions)),
            Entry("tools", VList([VDict([Entry("googleSearch", VDict([Entry("fileSearchStore", c.fileSearchStore)]))])])),
            Entry("generationConfig", VDict([Entry("temperature", temperature), Entry("topK", topK),
                                             Entry("maxOutputTokens", maxTokens)]))]);
          match Dumps(env, body)
          case Raised(m) => Raised(m)
          case Returned(text) => Returned(FlowValue(c, text, env.timestamp))
  }

  function FlowValue(c: AgentConfig, body: string, timestamp: string): Value {
    VDict([
      Entry("name", c.name),
      Entry("description", VStr("AI Agent: " + Str(c.name))),
      Entry("nodes", VList([
        VDict([Entry("name", VStr("Trigger")), Entry("type", VStr("n8n-nodes-base.webhookTrigger")),
               Entry("position", VList([VInt(100), VInt(100)])),
               Entry("parameters", VDict([Entry("path", VStr("agent/" + c.id))]))]),
        VDict([Entry("name", VStr("Gemini Query")), Entry("type", VStr("n8n-nodes-base.httpRequest")),
               Entry("position", VList([VInt(350), VInt(100)])),
               Entry("parameters", VDict([
                 Entry("authentication", VStr("oAuth2")),
                 Entry("url", VStr("https://generativelanguage.googleapis.com/v1beta/models/gemini-2.5-flash:generateContent")),
                 Entry("method", VStr("POST")), Entry("bodyParametersUi", VStr("json")),
                 Entry("body", VStr(body))]))]),
        VDict([Entry("name", VStr("Response")), Entry("type", VStr("n8n-nodes-base.respondToWebhook")),
               Entry("position", VList([VInt(600), VInt(100)])),
               Entry("parameters", VDict([
                 Entry("responseCode", VInt(200)),
                 Entry("responseData", VDict([Entry("response", VStr("{{ $json.candidates[0].content.parts[0].text }}"))]))]))])])),
      Entry("connections", VDict([
        Entry("Trigger", VDict([Entry("main", VList([VList([Link("Gemini Query")])]))])),
        Entry("Gemini Query", VDict([Entry("main", VList([VList([Link("Response")])]))]))])),
      Entry("metadata", VDict([Entry("agent_id", VStr(c.id)), Entry("created_at", VStr(timestamp)),
                               Entry("rag_config", RagConfigValue(c))]))])
  }

  function Link(node: string): Value {
    VDict([Entry("node", VStr(node)), Entry("type", VStr("main")), Entry("index", VInt(0))])
  }

  // ---------------------------------------------------------------- registration

  /** How the POST to MindsDB ended. */
  datatype Registration = Registered | CouldNotConnect | RegistrationFailed(reason: string)

  function KnowledgeBase(c: AgentConfig): Value {
    VDict([Entry("knowledge_base_name", c.name), Entry("source", c.fileSearchStore),
           Entry("type", VStr("gemini_file_search")),
           Entry("config", VDict([Entry("agent_id", VStr(c.id)), Entry("instructions", VStr(c.instructions)),
                                  Entry("model_config", c.modelConfig)]))])
  }

  /** `_register_with_mindsdb` catches every failure: it logs and returns True or False. */
  function RegistrationLogs(r: Registration, now: int): seq<LogEntry> {
    [InfoLog(now, "Registering with MindsDB"),
     match r
     case Registered => InfoLog(now, "Successfully registered with MindsDB")
     case CouldNotConnect => WarningLog(now, "Could not connect to MindsDB")
     case RegistrationFailed(e) => WarningLog(now, "MindsDB registration failed: " + e)]
  }

  // ---------------------------------------------------------------- YAML export

  /** `"  " * depth`. */
  function Indent(depth: nat): (r: string)
    ensures |r| == 2 * depth
  {
    if depth == 0 then "" else "  " + Indent(depth - 1)
  }

  /** The indentation is spaces only. */
  lemma {:induction false} IndentSpaces(depth: nat)
    ensures forall i :: 0 <= i < |Indent(depth)| ==> Indent(depth)[i] == ' '
  {
    if depth > 0 {
      IndentSpaces(depth - 1);
      var r := Indent(depth);
      assert forall i :: 2 <= i < |r| ==> r[i] == Indent(depth - 1)[i - 2];
    }
  }

  /** `dict_to_yaml(d, depth)`: one piece per entry, in order. */
  function YamlEntries(d: seq<Entry>, depth: nat): (r: string)
    ensures d != [] ==> StartsWith(r, Indent(depth))
    ensures r == [] || r[|r| - 1] == '\n'
    decreases d
  {
    if d == [] then ""
    else
      var first := YamlPair(d[0], depth);
      var rest := YamlEntries(d[1..], depth);
      assert (first + rest)[..|Indent(depth)|] == first[..|Indent(depth)|];
      first + rest
  }

  /** A key and its value: a nested dict or a list opens a block one level deeper, anything
      else stays on the key's line. */
  function YamlPair(e: Entry, depth: nat): (r: string)
    ensures StartsWith(r, Indent(depth))
    ensures r != [] && r[|r| - 1] == '\n'
    decreases e
  {
    var sep := if e.val.VDict? || e.val.VList? then ":\n" else ": " + Str(e.val);
    var tail :=
      match e.val
      case VDict(sub) => YamlEntries(sub, depth + 1)
      case VList(items) => YamlItems(items, depth + 1)
      case _ => "\n";
    PieceShape(Indent(depth), e.key, sep, tail);
    Indent(depth) + e.key + sep + tail
  }

  /** An indented line, and the block after it, start with the indentation and end with a
      newline. */
  lemma PieceShape(indent: string, key: string, sep: string, tail: string)
    requires sep == ":\n" || tail == "\n"
    requires tail == [] || tail[|tail| - 1] == '\n'
    ensures StartsWith(indent + key + sep + tail, indent)
    ensures var r := indent + key + sep + tail; r != [] && r[|r| - 1] == '\n'
  {
    var r := indent + key + sep + tail;
    assert r == indent + (key + sep + tail);
    assert r[..|indent|] == indent;
    if tail == [] {
      assert r == indent + key + sep;
    }
  }

  /** The items of a list at `depth`: a dict item's entries at that depth, anything else as
      "- item". */
  function YamlItems(items: seq<Value>, depth: nat): (r: string)
    ensures r == [] || r[|r| - 1] == '\n'
    decreases items
  {
    if items == [] then ""
    else
      var first := match items[0]
                   case VDict(sub) => YamlEntries(sub, depth)
                   case _ => Indent(depth) + "- " + Str(items[0]) + "\n";
      first + YamlItems(items[1..], depth)
  }

  /** `_to_yaml`. */
  function ToYaml(d: seq<Entry>): string {
    YamlEntries(d, 0)
  }

  /** The text of a dict is the texts of its entries one after the other. */
  lemma {:induction false} YamlConcat(d1: seq<Entry>, d2: seq<Entry>, depth: nat)
    ensures YamlEntries(d1 + d2, depth) == YamlEntries(d1, depth) + YamlEntries(d2, depth)
    decreases |d1|
  {
    if d1 != [] {
      var first := YamlPair(d1[0], depth);
      assert d1 + d2 == [d1[0]] + (d1[1..] + d2);
      assert d1 == [d1[0]] + d1[1..];
      calc {
        YamlEntries(d1 + d2, depth);
      == { YamlCons(d1[0], d1[1..] + d2, depth); }
        first + YamlEntries(d1[1..] + d2, depth);
      == { YamlConcat(d1[1..], d2, depth); }
        first + (YamlEntries(d1[1..], depth) + YamlEntries(d2, depth));
      ==
        (first + YamlEntries(d1[1..], depth)) + YamlEntries(d2, depth);
      == { YamlCons(d1[0], d1[1..], depth); }
        YamlEntries(d1, depth) + YamlEntries(d2, depth);
      }
    } else {
      assert d1 + d2 == d2;
    }
  }

  /** The first entry's piece comes first. */
  lemma YamlCons(e: Entry, rest: seq<Entry>, depth: nat)
    ensures YamlEntries([e] + rest, depth) == YamlPair(e, depth) + YamlEntries(rest, depth)
  {
    assert ([e] + rest)[1..] == rest;
  }

  /** The three formatting rules, and the empty dict. */
  lemma YamlRules(key: string, v: Value, depth: nat)
    ensures ToYaml([]) == ""
    ensures !v.VDict? && !v.VList? ==> YamlEntries([Entry(key, v)], depth) == Indent(depth) + key + ": " + Str(v) + "\n"
    ensures v.VDict? ==> YamlEntries([Entry(key, v)], depth) == Indent(depth) + key + ":\n" + YamlEntries(v.entries, depth + 1)
    ensures v.VList? ==> YamlEntries([Entry(key, v)], depth) == Indent(depth) + key + ":\n" + YamlItems(v.items, depth + 1)
    ensures !v.VDict? ==> YamlItems([v], depth + 1) == Indent(depth + 1) + "- " + Str(v) + "\n"
  {
  }

  // ---------------------------------------------------------------- export formats

  /** `_create_export_formats`: a JSON text of the configuration and the flow, the YAML text
      of the configuration, and a JSON text of the flow. */
  function ExportFormats(c: AgentConfig, flow: Value, env: Environment): (r: Call<Value>)
    ensures r.Returned? ==> r.value.VDict? && Keys(r.value.entries) == {"json", "yaml", "n8n"}
    ensures r.Returned? <==> Unencodable(VDict([Entry("agent", ConfigValue(c)), Entry("n8n_flow", flow),
                                                Entry("export_date", VStr(env.timestamp))])).None?
                             && Unencodable(flow).None?
  {
    match Dumps(env, VDict([Entry("agent", ConfigValue(c)), Entry("n8n_flow", flow), Entry("export_date", VStr(env.timestamp))]))
    case Raised(m) => Raised(m)
    case Returned(json) =>
      match Dumps(env, flow)
      case Raised(m) => Raised(m)
      case Returned(n8n) =>
        var entries := [Entry("json", VStr(json)), Entry("yaml", VStr(ToYaml(ConfigValue(c).entries))),
                        Entry("n8n", VStr(n8n))];
        assert Keys(entries[2..]) == {"n8n"};
        assert Keys(entries[1..]) == {"yaml", "n8n"};
        Returned(VDict(entries))
  }

  // ---------------------------------------------------------------- execute

  /** The configuration `execute` builds from a dict input. */
  function ConfigOf(env: Environment, d: seq<Entry>): Call<AgentConfig> {
    CreateAgentConfig(Get(d, "agent_name").GetOr(VNone), Get(d, "instructions").GetOr(VNone),
                      Get(d, "file_source").GetOr(VNone), Get(d, "file_search_store").GetOr(VNone),
                      Get(d, "sufficiency_score").GetOr(VInt(0)), Get(d, "model_config").GetOr(VNone),
                      env.millis)
  }

  datatype Created = Created(config: AgentConfig, flow: Value, registered: bool, exports: Value)

  function ResultData(c: Created): Value {
    VDict([Entry("agent_id", VStr(c.config.id)), Entry("agent_config", ConfigValue(c.config)),
           Entry("n8n_flow", c.flow), Entry("mindsdb_registered", VBool(c.registered)),
           Entry("export_formats", c.exports)])
  }

  /** The body of `execute`'s try block on a dict input: how it ended and what it logged
      after its first line. As written (`checkRegistration` false) the flag is set to True
      once the registration call returns; corrected, it is the call's answer. */
  function CreationOf(checkRegistration: bool, env: Environment, d: seq<Entry>, now: int): (r: (Call<Created>, seq<LogEntry>))
    ensures r.0.Returned? ==> r.0.value.config.sufficiencyScore == Get(d, "sufficiency_score").GetOr(VInt(0))
  {
    var config := ConfigOf(env, d);
    match config
    case Raised(m) => (Raised(m), [])
    case Returned(c) =>
      var made := [InfoLog(now, "Agent config created: " + c.id)];
      match N8nFlow(c, env)
      case Raised(m) => (Raised(m), made)
      case Returned(flow) =>
        var answer := env.register(KnowledgeBase(c));
        var registered := if checkRegistration then answer == Registered else true;
        var logged := made + [InfoLog(now, "n8n flow generated")] + RegistrationLogs(answer, now)
                      + (if registered then [InfoLog(now, "Agent registered with MindsDB")] else []);
        match ExportFormats(c, flow, env)
        case Raised(m) => (Raised(m), logged)
        case Returned(exports) =>
          (Returned(Created(c, flow, registered, exports)), logged + [InfoLog(now, "Agent creation completed successfully")])
  }

  const CreationFailedPrefix := "Agent creation failed: "

  /** `execute`: it never raises; any exception becomes an error entry and an error result
      whose data is None. */
  function ExecuteWith(checkRegistration: bool, env: Environment, inv: Invocation, input: Value): (e: Effects<StageResult>)
    ensures e.call.Returned?
    ensures e.call.value.status == "success" <==> e.errored == []
    ensures e.call.value.status != "success" ==>
      && e.call.value == ErrorResult(inv.agentId, e.call.value.message)
      && e.errored == [ErrorEntry(inv.now, CreationFailedPrefix + e.call.value.message, Some(e.call.value.message))]
    ensures !input.VDict? ==> e.call.value == ErrorResult(inv.agentId, NoAttribute(input, "get"))
    ensures input.VDict? ==>
      var run := CreationOf(checkRegistration, env, input.entries, inv.now);
      && (e.call.value.status == "success" <==> run.0.Returned?)
      && (run.0.Returned? ==>
            e.call.value == StageResult("success", inv.agentId, "Agent created successfully", Present(ResultData(run.0.value))))
      && (run.0.Raised? ==> e.call.value == ErrorResult(inv.agentId, run.0.reason))
  {
    var now := inv.now;
    var start := InfoLog(now, "Starting agent creation process");
    var run := if input.VDict? then CreationOf(checkRegistration, env, input.entries, now)
               else (Raised(NoAttribute(input, "get")), []);
    match run.0
    case Returned(c) =>
      Effects(Returned(StageResult("success", inv.agentId, "Agent created successfully", Present(ResultData(c)))),
              [start] + run.1, [])
    case Raised(m) =>
      var message := CreationFailedPrefix + m;
      Effects(Returned(ErrorResult(inv.agentId, m)), [start] + run.1 + [ErrorLog(now, message, Some(m))],
              [ErrorEntry(now, message, Some(m))])
  }

  /** `execute` with the registration flag taken from the call's answer. */
  function Execute(env: Environment, inv: Invocation, input: Value): Effects<StageResult> {
    ExecuteWith(true, env, inv, input)
  }

  /** The agent as a stage of a chain or pipeline: as written when `checkRegistration` is false. */
  function MindsdbStage(checkRegistration: bool, env: Environment): Stage {
    Stage("MindsDBAgent", Validate, (inv, input) => ExecuteWith(checkRegistration, env, inv, input))
  }

  /** A successful creation reports the configuration's id, which starts with "agent_", as
      `data.agent_id`. */
  lemma SuccessCarriesConfigId(checkRegistration: bool, env: Environment, inv: Invocation, d: seq<Entry>)
    requires CreationOf(checkRegistration, env, d, inv.now).0.Returned?
    ensures var c := CreationOf(checkRegistration, env, d, inv.now).0.value;
      var e := ExecuteWith(checkRegistration, env, inv, VDict(d));
      && e.call.value.status == "success"
      && e.call.value.data.Present? && e.call.value.data.value.VDict?
      && Get(e.call.value.data.value.entries, "agent_id") == Some(VStr(c.config.id))
      && StartsWith(c.config.id, "agent_")
  {
    CreatedFrom(checkRegistration, env, d, inv.now);
  }

  /** A created agent carries the configuration and the flow that were built, and the
      registration flag the chosen behaviour gives. */
  lemma CreatedFrom(checkRegistration: bool, env: Environment, d: seq<Entry>, now: int)
    requires CreationOf(checkRegistration, env, d, now).0.Returned?
    ensures var r := CreationOf(checkRegistration, env, d, now).0.value;
      && ConfigOf(env, d) == Returned(r.config)
      && N8nFlow(r.config, env) == Returned(r.flow)
      && (r.registered <==> !checkRegistration || env.register(KnowledgeBase(r.config)) == Registered)
  {
    var config := ConfigOf(env, d);
    assert config.Returned?;
    var flow := N8nFlow(config.value, env);
    assert flow.Returned?;
    var r := CreationOf(checkRegistration, env, d, now).0.value;
    assert r.config == config.value && r.flow == flow.value;
  }

  /** The creation succeeds exactly when the configuration, the flow and the exports do. */
  lemma CreationSucceeds(checkRegistration: bool, env: Environment, d: seq<Entry>, now: int)
    ensures CreationOf(checkRegistration, env, d, now).0.Returned? <==>
      && ConfigOf(env, d).Returned?
      && N8nFlow(ConfigOf(env, d).value, env).Returned?
      && ExportFormats(ConfigOf(env, d).value, N8nFlow(ConfigOf(env, d).value, env).value, env).Returned?
  {
  }

  /** Registration never decides the outcome: whatever MindsDB answers, the creation
      succeeds or fails alike. */
  lemma RegistrationNotFatal(checkRegistration: bool, env: Environment, register: Value -> Registration, d: seq<Entry>, now: int)
    ensures CreationOf(checkRegistration, env, d, now).0.Returned?
        <==> CreationOf(checkRegistration, env.(register := register), d, now).0.Returned?
  {
    var other := env.(register := register);
    CreationSucceeds(checkRegistration, env, d, now);
    CreationSucceeds(checkRegistration, other, d, now);
    assert ConfigOf(other, d) == ConfigOf(env, d);
    var config := ConfigOf(env, d);
    if config.Returned? {
      var c := config.value;
      assert N8nFlow(c, other) == N8nFlow(c, env);
    }
  }

  /** As written the result claims registration whenever the creation succeeds, even when
      MindsDB could not be reached. */
  lemma AsWrittenAlwaysRegistered(env: Environment, d: seq<Entry>, now: int)
    requires CreationOf(false, env, d, now).0.Returned?
    ensures CreationOf(false, env, d, now).0.value.registered
  {
    CreatedFrom(false, env, d, now);
  }

  /** Corrected, the flag is True exactly when MindsDB accepted the knowledge base. */
  lemma CorrectedRegistration(env: Environment, d: seq<Entry>, now: int)
    requires CreationOf(true, env, d, now).0.Returned?
    ensures var c := CreationOf(true, env, d, now).0.value;
      c.registered <==> env.register(KnowledgeBase(c.config)) == Registered
  {
    CreatedFrom(true, env, d, now);
  }

  /** A flow that cannot be built ends the creation with its exception's text. */
  lemma FlowFailureReported(env: Environment, inv: Invocation, d: seq<Entry>, m: string)
    requires ConfigOf(env, d).Returned? && N8nFlow(ConfigOf(env, d).value, env) == Raised(m)
    ensures Execute(env, inv, VDict(d)).call.value == ErrorResult(inv.agentId, m)
  {
    assert CreationOf(true, env, d, inv.now).0 == Raised(m);
  }

  /** A model configuration without "temperature" makes the creation fail with the KeyError's
      text, though `validate_input` does not look at it. */
  lemma MissingTemperatureFails(env: Environment, inv: Invocation, d: seq<Entry>, model: seq<Entry>)
    requires Get(d, "instructions").Some? && Get(d, "instructions").value.VStr?
    requires Get(d, "model_config") == Some(VDict(model)) && model != []
    requires "temperature" !in Keys(model)
    ensures Execute(env, inv, VDict(d)).call.value == ErrorResult(inv.agentId, "'temperature'")
  {
    assert Truthy(VDict(model));
    var config := ConfigOf(env, d);
    assert config.Returned? && config.value.modelConfig == VDict(model);
    NoTemperatureNoFlow(config.value, env, model);
    FlowFailureReported(env, inv, d, "'temperature'");
  }

  lemma NoTemperatureNoFlow(c: AgentConfig, env: Environment, model: seq<Entry>)
    requires c.modelConfig == VDict(model) && "temperature" !in Keys(model)
    ensures N8nFlow(c, env) == Raised("'temperature'")
  {
    assert "'" + "temperature" + "'" == "'temperature'";
  }
}
