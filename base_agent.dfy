/** The stage contract (`BaseAgent.run`: validate, then execute, with faults turned into
    error results) and the replacing chain (`AgentChain.execute`).

    A concrete agent's two abstract methods are modelled as total functions that report how
    the call ended (returned or raised) together with the log and error entries the call
    recorded on its agent; `Agent.Run` applies those entries in order. */
module BaseAgent {
  import opened Values
  import Text

  datatype LogEntry = LogEntry(timestamp: int, level: string, message: string, metadata: seq<Entry>)

  datatype ErrorEntry = ErrorEntry(timestamp: int, message: string, exception: Option<string>)

  /** How a call ended: it returned a value, or raised an exception whose `str` is `reason`. */
  datatype Call<+T> = Returned(value: T) | Raised(reason: string)

  /** A call into agent-specific code together with the entries it appended, in order, to
      its agent's `logs` and `errors`. */
  datatype Effects<+T> = Effects(call: Call<T>, logged: seq<LogEntry>, errored: seq<ErrorEntry>)

  /** The "data" key of a result: absent, or present with a value (possibly None). */
  datatype Field = Missing | Present(value: Value)

  /** A result dict: "status", "agent_id", "message" and "data". */
  datatype StageResult = StageResult(status: string, agentId: string, message: string, data: Field)

  /** What a call can see of its agent and of the clock. */
  datatype Invocation = Invocation(agentId: string, now: int)

  /** A concrete agent class: its name and its `validate_input` and `execute` methods. */
  datatype Stage = Stage(
    className: string,
    validate: (Invocation, Value) -> Effects<bool>,
    execute: (Invocation, Value) -> Effects<StageResult>)

  const ValidationFailed := "Input validation failed"
  const ExecutionFailedPrefix := "Agent execution failed: "

  /** The log entry `error(message, exc)` writes beside its error entry. */
  function ErrorLog(now: int, message: string, exc: Option<string>): LogEntry {
    LogEntry(now, "ERROR", message, [Entry("exception", if exc.Some? then VStr(exc.value) else VNone)])
  }

  /** A call that ended with `self.error(message, exc)` followed by the given outcome. */
  function WithError<T>(call: Call<T>, now: int, message: string, exc: Option<string>): (e: Effects<T>)
    ensures |e.logged| == 1 && |e.errored| == 1 && e.logged[0].level == "ERROR"
  {
    Effects(call, [ErrorLog(now, message, exc)], [ErrorEntry(now, message, exc)])
  }

  /** A call that recorded nothing on its agent. */
  function Quiet<T>(call: Call<T>): Effects<T> {
    Effects(call, [], [])
  }

  function ErrorResult(agentId: string, message: string): StageResult {
    StageResult("error", agentId, message, Present(VNone))
  }

  /** The result of `run(input)`: it depends on the agent's code and the input only. */
  function RunResult(stage: Stage, agentId: string, input: Value, now: int): (r: StageResult)
    ensures (stage.validate(Invocation(agentId, now), input).call == Returned(false))
      ==> r == ErrorResult(agentId, ValidationFailed)
    ensures (stage.validate(Invocation(agentId, now), input).call == Returned(true))
      ==> match stage.execute(Invocation(agentId, now), input).call
                  case Returned(x) => r == x
                  case Raised(e) => r == ErrorResult(agentId, ExecutionFailedPrefix + e)
  {
    var inv := Invocation(agentId, now);
    match stage.validate(inv, input).call
    case Raised(e) => ErrorResult(agentId, ExecutionFailedPrefix + e)
    case Returned(ok) =>
      if !ok then ErrorResult(agentId, ValidationFailed)
      else
        match stage.execute(inv, input).call
        case Raised(e) => ErrorResult(agentId, ExecutionFailedPrefix + e)
        case Returned(x) => x
  }

  /** Whatever `execute` would do, a run whose validation does not return True gives the same
      result: `execute` is not consulted. */
  lemma RunIgnoresExecuteUnlessValid(s: Stage, t: Stage, agentId: string, input: Value, now: int)
    requires s.validate == t.validate
    requires s.validate(Invocation(agentId, now), input).call != Returned(true)
    ensures RunResult(s, agentId, input, now) == RunResult(t, agentId, input, now)
    ensures RunResult(s, agentId, input, now).status == "error"
  {
  }

  datatype Stats = Stats(agentId: string, createdAt: int, lastRun: Option<int>,
                         executionCount: nat, totalErrors: nat, totalLogs: nat)

  /** A `BaseAgent` instance: identity, the class's code, and its diagnostic state. */
  class Agent {
    const agentId: string
    const stage: Stage
    const createdAt: int
    var lastRun: Option<int>
    var executionCount: nat
    var errors: seq<ErrorEntry>
    var logs: seq<LogEntry>

    /** `agent_id or str(uuid.uuid4())`: an empty or missing id is replaced by a fresh one. */
    constructor (stage: Stage, requestedId: Option<string>, freshId: string, now: int)
      ensures agentId == if requestedId.Some? && requestedId.value != [] then requestedId.value else freshId
      ensures this.stage == stage && createdAt == now
      ensures lastRun == None && executionCount == 0 && errors == [] && logs == []
    {
      agentId := if requestedId.Some? && requestedId.value != [] then requestedId.value else freshId;
      this.stage := stage;
      createdAt := now;
      lastRun := None;
      executionCount := 0;
      errors := [];
      logs := [];
    }

    /** `log`: exactly one entry, with `metadata or {}`. */
    method Log(level: string, message: string, metadata: Option<seq<Entry>>, now: int)
      modifies this`logs
      ensures logs == old(logs) + [LogEntry(now, level, message, metadata.GetOr([]))]
    {
      logs := logs + [LogEntry(now, level, message, metadata.GetOr([]))];
    }

    /** `error`: exactly one error entry and exactly one ERROR log entry. */
    method Error(message: string, exc: Option<string>, now: int)
      modifies this`logs, this`errors
      ensures errors == old(errors) + [ErrorEntry(now, message, exc)]
      ensures logs == old(logs) + [ErrorLog(now, message, exc)]
    {
      errors := errors + [ErrorEntry(now, message, exc)];
      Log("ERROR", message, Some([Entry("exception", if exc.Some? then VStr(exc.value) else VNone)]), now);
    }

    /** `run`: validation first; `execute` only after it returns True; any exception becomes an
        error result and an error entry; the counter grows only when `execute` returns. */
    method Run(input: Value, now: int) returns (r: StageResult)
      modifies this`logs, this`errors, this`lastRun, this`executionCount
      ensures r == RunResult(stage, agentId, input, now)
      ensures var v := stage.validate(Invocation(agentId, now), input);
        match v.call
        case Raised(e) =>
          && errors == old(errors) + v.errored + [ErrorEntry(now, ExecutionFailedPrefix + e, Some(e))]
          && logs == old(logs) + v.logged + [ErrorLog(now, ExecutionFailedPrefix + e, Some(e))]
          && executionCount == old(executionCount) && lastRun == old(lastRun)
        case Returned(ok) =>
          if !ok then
            && errors == old(errors) + v.errored + [ErrorEntry(now, ValidationFailed, None)]
            && logs == old(logs) + v.logged + [ErrorLog(now, ValidationFailed, None)]
            && executionCount == old(executionCount) && lastRun == old(lastRun)
          else
            var x := stage.execute(Invocation(agentId, now), input);
            var started := old(logs) + v.logged + [LogEntry(now, "INFO", "Executing agent " + agentId, [])];
            match x.call
            case Raised(e) =>
              && errors == old(errors) + v.errored + x.errored + [ErrorEntry(now, ExecutionFailedPrefix + e, Some(e))]
              && logs == started + x.logged + [ErrorLog(now, ExecutionFailedPrefix + e, Some(e))]
              && executionCount == old(executionCount) && lastRun == old(lastRun)
            case Returned(_) =>
              && errors == old(errors) + v.errored + x.errored
              && logs == started + x.logged
              && executionCount == old(executionCount) + 1 && lastRun == Some(now)
    {
      var inv := Invocation(agentId, now);
      var v := stage.validate(inv, input);
      logs := logs + v.logged;
      errors := errors + v.errored;
      match v.call {
        case Raised(e) =>
          Error(ExecutionFailedPrefix + e, Some(e), now);
          r := ErrorResult(agentId, ExecutionFailedPrefix + e);
        case Returned(ok) =>
          if !ok {
            Error(ValidationFailed, None, now);
            r := ErrorResult(agentId, ValidationFailed);
          } else {
            Log("INFO", "Executing agent " + agentId, None, now);
            var x := stage.execute(inv, input);
            logs := logs + x.logged;
            errors := errors + x.errored;
            match x.call {
              case Raised(e) =>
                Error(ExecutionFailedPrefix + e, Some(e), now);
                r := ErrorResult(agentId, ExecutionFailedPrefix + e);
              case Returned(res) =>
                lastRun := Some(now);
                executionCount := executionCount + 1;
                r := res;
            }
          }
      }
    }

    /** `get_stats`. */
    function GetStats(): (s: Stats)
      reads this
      ensures s.executionCount == executionCount && s.lastRun == lastRun
      ensures s.totalErrors == |errors| && s.totalLogs == |logs|
    {
      Stats(agentId, createdAt, lastRun, executionCount, |errors|, |logs|)
    }
  }

  // ---------------------------------------------------------------- helpers of the concrete agents

  function InfoLog(now: int, message: string): LogEntry {
    LogEntry(now, "INFO", message, [])
  }

  function WarningLog(now: int, message: string): LogEntry {
    LogEntry(now, "WARNING", message, [])
  }

  /** The text of the AttributeError raised when `v` has no attribute `name`. */
  function NoAttribute(v: Value, name: string): string {
    "'" + TpName(v) + "' object has no attribute '" + name + "'"
  }

  /** `container[key]` for a string key: a dict looks the key up (KeyError when absent), and
      the other types refuse a string subscript. */
  function Subscript(container: Value, key: string): (r: Call<Value>)
    ensures container.VDict? ==> (r.Returned? <==> key in Keys(container.entries))
    ensures r.Returned? ==> container.VDict? && Get(container.entries, key) == Some(r.value)
  {
    match container
    case VDict(d) => if Get(d, key).Some? then Returned(Get(d, key).value) else Raised("'" + key + "'")
    case VStr(_) => Raised("string indices must be integers, not 'str'")
    case VList(_) => Raised("list indices must be integers or slices, not str")
    case _ => Raised("'" + TpName(container) + "' object is not subscriptable")
  }

  /** `key in container`: a dict tests its keys, a string its substrings and a list its items;
      anything else is not iterable and the test raises TypeError. */
  function HasKey(container: Value, key: string): (r: Call<bool>)
    ensures container.VDict? ==> r == Returned(key in Keys(container.entries))
  {
    match container
    case VDict(d) => Returned(key in Keys(d))
    case VStr(s) => Returned(Text.Contains(s, key))
    case VList(items) => Returned(VStr(key) in items)
    case _ => Raised("argument of type '" + TpName(container) + "' is not iterable")
  }

  /** The `validate_input` loop over required fields: the first missing field logs a warning
      and answers False; a container the test cannot search raises. */
  function RequireFields(now: int, input: Value, fields: seq<string>): (e: Effects<bool>)
    ensures e.errored == [] && |e.logged| <= 1
    ensures input.VDict? ==> e.call == Returned(forall f :: f in fields ==> f in Keys(input.entries))
    ensures input.VDict? && e.call == Returned(false) ==> |e.logged| == 1 && e.logged[0].level == "WARNING"
    ensures input.VDict? && e.call == Returned(true) ==> e.logged == []
  {
    if fields == [] then Quiet(Returned(true))
    else
      match HasKey(input, fields[0])
      case Raised(m) => Quiet(Raised(m))
      case Returned(found) =>
        if !found then Effects(Returned(false), [WarningLog(now, "Missing required field: " + fields[0])], [])
        else RequireFields(now, input, fields[1..])
  }

  // ---------------------------------------------------------------- the replacing chain

  /** An agent of a chain as the chain's result sees it: its id and its class's code. */
  datatype Slot = Slot(agentId: string, stage: Stage)

  function SlotsOf(agents: seq<Agent>): (s: seq<Slot>)
    ensures |s| == |agents|
    ensures forall i :: 0 <= i < |agents| ==> s[i] == Slot(agents[i].agentId, agents[i].stage)
  {
    seq(|agents|, i requires 0 <= i < |agents| => Slot(agents[i].agentId, agents[i].stage))
  }

  function RunSlot(slot: Slot, input: Value, now: int): StageResult {
    RunResult(slot.stage, slot.agentId, input, now)
  }

  /** `result.get("data", current_input)`: the data replaces the input whenever the key exists. */
  function NextInput(r: StageResult, current: Value): Value {
    match r.data
    case Missing => current
    case Present(v) => v
  }

  /** The input the stage after `ran` receives. */
  function InputAfter(input: Value, ran: seq<StageResult>): Value
    decreases |ran|
  {
    if ran == [] then input else NextInput(ran[|ran| - 1], InputAfter(input, ran[..|ran| - 1]))
  }

  datatype ChainEnd = ChainFailedAt(index: nat, message: string) | ChainDone(finalOutput: Value)

  /** The results produced by one execution of a chain, in order, and how it ended. */
  datatype ChainTrace = ChainTrace(ran: seq<StageResult>, end: ChainEnd)

  /** The loop of `AgentChain.execute` from agent `i` on, with `current` the input of agent `i`
      and `ran` the results so far. */
  function ChainLoop(slots: seq<Slot>, i: nat, current: Value, ran: seq<StageResult>, now: int): ChainTrace
    requires i <= |slots|
    decreases |slots| - i
  {
    if i == |slots| then ChainTrace(ran, ChainDone(current))
    else
      var r := RunSlot(slots[i], current, now);
      if r.status == "error" then ChainTrace(ran + [r], ChainFailedAt(i, r.message))
      else ChainLoop(slots, i + 1, NextInput(r, current), ran + [r], now)
  }

  function Chain(slots: seq<Slot>, input: Value, now: int): ChainTrace {
    ChainLoop(slots, 0, input, [], now)
  }

  /** `ran` is what the first |ran| agents of the chain return when each runs on the input
      the results before it hand on. */
  ghost predicate Faithful(slots: seq<Slot>, input: Value, ran: seq<StageResult>, now: int) {
    && |ran| <= |slots|
    && forall j :: 0 <= j < |ran| ==> ran[j] == RunSlot(slots[j], InputAfter(input, ran[..j]), now)
  }

  predicate NoErrorBefore(ran: seq<StageResult>, k: nat) {
    k <= |ran| && forall j :: 0 <= j < k ==> ran[j].status != "error"
  }

  /** How a trace ended agrees with its results. */
  ghost predicate EndsAsReported(slots: seq<Slot>, input: Value, t: ChainTrace) {
    match t.end
    case ChainFailedAt(k, m) =>
      && k + 1 == |t.ran| && t.ran[k].status == "error" && m == t.ran[k].message
      && NoErrorBefore(t.ran, k)
    case ChainDone(out) =>
      && |t.ran| == |slots| && out == InputAfter(input, t.ran)
      && NoErrorBefore(t.ran, |t.ran|)
  }

  lemma FaithfulExtend(slots: seq<Slot>, input: Value, ran: seq<StageResult>, now: int)
    requires Faithful(slots, input, ran, now) && |ran| < |slots|
    ensures var r := RunSlot(slots[|ran|], InputAfter(input, ran), now);
      && Faithful(slots, input, ran + [r], now)
      && InputAfter(input, ran + [r]) == NextInput(r, InputAfter(input, ran))
  {
    var r := RunSlot(slots[|ran|], InputAfter(input, ran), now);
    var ran' := ran + [r];
    assert ran'[..|ran|] == ran;
    forall j | 0 <= j < |ran'| ensures ran'[j] == RunSlot(slots[j], InputAfter(input, ran'[..j]), now) {
      if j < |ran| {
        assert ran'[..j] == ran[..j];
      }
    }
  }

  lemma {:induction false} ChainLoopFacts(slots: seq<Slot>, input: Value, ran: seq<StageResult>, now: int)
    requires Faithful(slots, input, ran, now) && NoErrorBefore(ran, |ran|)
    ensures var t := ChainLoop(slots, |ran|, InputAfter(input, ran), ran, now);
      Faithful(slots, input, t.ran, now) && EndsAsReported(slots, input, t)
    decreases |slots| - |ran|
  {
    if |ran| < |slots| {
      var r := RunSlot(slots[|ran|], InputAfter(input, ran), now);
      FaithfulExtend(slots, input, ran, now);
      if r.status != "error" {
        ChainLoopFacts(slots, input, ran + [r], now);
      }
    }
  }

  /** The chain's contract: agent j runs on the data of agent j-1's result (or, when that
      result has no "data" key, on agent j-1's own input); the chain stops at the first result
      whose status is "error", reporting its index, having run exactly that many agents plus
      one; otherwise every agent runs once and the final output is the last replacement. */
  lemma ChainContract(slots: seq<Slot>, input: Value, now: int)
    ensures var t := Chain(slots, input, now);
      && |t.ran| <= |slots|
      && (forall j :: 0 <= j < |t.ran| ==> t.ran[j] == RunSlot(slots[j], InputAfter(input, t.ran[..j]), now))
      && match t.end
         case ChainFailedAt(k, m) =>
           && k < |slots| && |t.ran| == k + 1
           && t.ran[k].status == "error" && m == t.ran[k].message
           && forall j :: 0 <= j < k ==> t.ran[j].status != "error"
         case ChainDone(out) =>
           && |t.ran| == |slots| && out == InputAfter(input, t.ran)
           && forall j :: 0 <= j < |slots| ==> t.ran[j].status != "error"
  {
    ChainLoopFacts(slots, input, [], now);
  }

  /** Agents after the failing one are never run: replacing them changes nothing. */
  lemma {:induction false} ChainIgnoresLaterAgents(slots: seq<Slot>, other: seq<Slot>, input: Value, now: int, k: nat)
    requires Chain(slots, input, now).end.ChainFailedAt? && k == Chain(slots, input, now).end.index
    requires k < |other| && |slots| > k && other[..k + 1] == slots[..k + 1]
    ensures Chain(other, input, now) == Chain(slots, input, now)
  {
    ChainContract(slots, input, now);
    LoopAgree(slots, other, input, 0, [], now, k);
  }

  lemma {:induction false} LoopAgree(slots: seq<Slot>, other: seq<Slot>, cur: Value, i: nat, ran: seq<StageResult>, now: int, k: nat)
    requires i <= k < |slots| && k < |other| && other[..k + 1] == slots[..k + 1]
    requires ChainLoop(slots, i, cur, ran, now).end.ChainFailedAt? && ChainLoop(slots, i, cur, ran, now).end.index == k
    ensures ChainLoop(other, i, cur, ran, now) == ChainLoop(slots, i, cur, ran, now)
    decreases k - i
  {
    assert other[i] == other[..k + 1][i] == slots[..k + 1][i] == slots[i];
    var r := RunSlot(slots[i], cur, now);
    if r.status != "error" {
      if i == k {
        LoopFailsNoEarlier(slots, i + 1, NextInput(r, cur), ran + [r], now);
      } else {
        LoopAgree(slots, other, NextInput(r, cur), i + 1, ran + [r], now, k);
      }
    }
  }

  lemma {:induction false} LoopFailsNoEarlier(slots: seq<Slot>, i: nat, cur: Value, ran: seq<StageResult>, now: int)
    requires i <= |slots|
    ensures ChainLoop(slots, i, cur, ran, now).end.ChainFailedAt? ==> ChainLoop(slots, i, cur, ran, now).end.index >= i
    decreases |slots| - i
  {
    if i < |slots| {
      var r := RunSlot(slots[i], cur, now);
      if r.status != "error" {
        LoopFailsNoEarlier(slots, i + 1, NextInput(r, cur), ran + [r], now);
      }
    }
  }

  /** A chain without agents succeeds with its input as final output, having run nothing. */
  lemma EmptyChain(input: Value, now: int)
    ensures Chain([], input, now) == ChainTrace([], ChainDone(input))
  {
  }

  datatype ChainReport =
    | ChainFailed(chainId: string, failedAtAgent: nat, message: string, results: seq<StageResult>)
    | ChainSucceeded(chainId: string, results: seq<StageResult>, finalOutput: Value)

  /** `AgentChain`: its agents and the list of every result produced by any of its executions. */
  class AgentChain {
    const chainId: string
    const agents: seq<Agent>
    var results: seq<StageResult>

    constructor (agents: seq<Agent>, requestedId: Option<string>, freshId: string)
      ensures chainId == if requestedId.Some? && requestedId.value != [] then requestedId.value else freshId
      ensures this.agents == agents && results == []
    {
      chainId := if requestedId.Some? && requestedId.value != [] then requestedId.value else freshId;
      this.agents := agents;
      results := [];
    }

    /** `execute`: results are appended to `results`, which is never cleared, so the report of
        a second execution also carries the first one's results. */
    method Execute(initialInput: Value, now: int) returns (report: ChainReport)
      modifies this, set a | a in agents
      ensures var t := Chain(SlotsOf(agents), initialInput, now);
        && results == old(results) + t.ran
        && report == match t.end
                     case ChainFailedAt(k, m) => ChainFailed(chainId, k, m, results)
                     case ChainDone(out) => ChainSucceeded(chainId, results, out)
      ensures report.ChainFailed? ==> report.failedAtAgent < |agents|
      ensures report.ChainFailed? ==>
        forall a :: a in agents && a !in agents[..report.failedAtAgent + 1] ==> unchanged(a)
    {
      var slots := SlotsOf(agents);
      var current := initialInput;
      var ran: seq<StageResult> := [];
      var i := 0;
      while i < |agents|
        invariant 0 <= i <= |agents|
        invariant results == old(results) + ran
        invariant ChainLoop(slots, i, current, ran, now) == Chain(slots, initialInput, now)
        invariant forall a :: a in agents && a !in agents[..i] ==> unchanged(a)
      {
        var r := agents[i].Run(current, now);
        results := results + [r];
        ran := ran + [r];
        if r.status == "error" {
          report := ChainFailed(chainId, i, r.message, results);
          assert forall a :: a in agents[..i] ==> a in agents[..i + 1];
          return;
        }
        current := NextInput(r, current);
        assert forall a :: a in agents[..i] ==> a in agents[..i + 1];
        assert agents[..i + 1] == agents[..i] + [agents[i]];
        i := i + 1;
      }
      report := ChainSucceeded(chainId, results, current);
    }
  }
}
