/** The shared-context pipeline (`Pipeline.execute`): every agent receives the same
    dictionary, and each successful result's data is merged into it with `dict.update`. */
module BasicPipeline {
  import opened Values
  import opened BaseAgent
  import opened Text

  /** What `context.update(result.get("data", {}))` does with a result's data: the entries it
      merges, or the exception it raises (as "Type: message") with the pairs it had already
      merged into the context when it raised. */
  datatype Merge = MergeEntries(entries: seq<Entry>) | Raises(error: string, before: seq<Entry>)

  function LengthError(k: nat, n: nat): string {
    "ValueError: dictionary update sequence element #" + IntToString(k) + " has length " + IntToString(n)
    + "; 2 is required"
  }

  /** The key/value pair `update` takes from element #k of a sequence: a list of two items whose
      first is a string, a string of two characters, or a dict of two keys (iterating a dict
      gives its keys). A list or dict as key is unhashable; any other non-string key (a number,
      bool, None, datetime or uploaded file) is outside the model, whose dict keys are strings. */
  function PairOf(x: Value, k: nat): (r: Call<Entry>)
    ensures r.Returned? ==> (x.VList? && |x.items| == 2) || (x.VStr? && |x.s| == 2) || (x.VDict? && |x.entries| == 2)
  {
    match x
    case VList(items) =>
      if |items| != 2 then Raised(LengthError(k, |items|))
      else
        (match items[0]
         case VStr(key) => Returned(Entry(key, items[1]))
         case VList(_) => Raised("TypeError: unhashable type: 'list'")
         case VDict(_) => Raised("TypeError: unhashable type: 'dict'")
         case _ => Raised("TypeError: non-string key"))
    case VStr(s) => if |s| != 2 then Raised(LengthError(k, |s|)) else Returned(Entry([s[0]], VStr([s[1]])))
    case VDict(d) => if |d| != 2 then Raised(LengthError(k, |d|)) else Returned(Entry(d[0].key, VStr(d[1].key)))
    case _ => Raised("TypeError: cannot convert dictionary update sequence element #" + IntToString(k) + " to a sequence")
  }

  /** The pair, or the error, of each element of a sequence argument, element #i at index i. */
  function PairsOf(xs: seq<Value>): (cs: seq<Call<Entry>>)
    ensures |cs| == |xs| && forall i :: 0 <= i < |xs| ==> cs[i] == PairOf(xs[i], i)
  {
    seq(|xs|, i requires 0 <= i < |xs| => PairOf(xs[i], i))
  }

  /** `update` over a sequence whose elements give `cs`, inserting pair after pair. */
  function MergeCalls(cs: seq<Call<Entry>>): Merge
    decreases |cs|
  {
    if cs == [] then MergeEntries([])
    else
      match cs[0]
      case Raised(e) => Raises(e, [])
      case Returned(p) =>
        match MergeCalls(cs[1..])
        case MergeEntries(ps) => MergeEntries([p] + ps)
        case Raises(e, before) => Raises(e, [p] + before)
  }

  /** `update` over a sequence merges the pairs of all its elements, in order, exactly when
      every element is a pair; otherwise it raises the error of the first element that is not,
      having merged the pairs of the elements before it. */
  lemma {:induction false} MergeCallsSpec(cs: seq<Call<Entry>>)
    ensures var m := MergeCalls(cs);
      && (m.MergeEntries? <==> forall i :: 0 <= i < |cs| ==> cs[i].Returned?)
      && (m.MergeEntries? ==> |m.entries| == |cs| && forall i :: 0 <= i < |cs| ==> cs[i] == Returned(m.entries[i]))
      && (m.Raises? ==>
            && |m.before| < |cs| && cs[|m.before|] == Raised(m.error)
            && forall i :: 0 <= i < |m.before| ==> cs[i] == Returned(m.before[i]))
    decreases |cs|
  {
    if cs != [] {
      var m := MergeCalls(cs);
      var rest := MergeCalls(cs[1..]);
      MergeCallsSpec(cs[1..]);
      assert forall i :: 1 <= i < |cs| ==> cs[i] == cs[1..][i - 1];
      if cs[0].Returned? {
        var p := cs[0].value;
        if rest.MergeEntries? {
          assert m == MergeEntries([p] + rest.entries);
        } else {
          assert m == Raises(rest.error, [p] + rest.before);
        }
      }
    }
  }

  /** A missing key merges `{}` and a dict merges its entries; a list merges its elements as
      pairs (`MergeCalls`); a non-empty string fails on its first one-character element; any
      other value is not iterable. */
  function DataUpdate(data: Field): (m: Merge)
    ensures data.Missing? ==> m == MergeEntries([])
    ensures data.Present? && data.value.VDict? ==> m == MergeEntries(data.value.entries)
    ensures data.Present? && data.value.VList? ==> m == MergeCalls(PairsOf(data.value.items))
    ensures data.Present? && data.value.VStr? ==>
      if data.value.s == [] then m == MergeEntries([]) else m == Raises(LengthError(0, 1), [])
    ensures data.Present? && !(data.value.VDict? || data.value.VList? || data.value.VStr?) ==>
      m.Raises? && m.before == [] && m.error == "TypeError: '" + TpName(data.value) + "' object is not iterable"
  {
    match data
    case Missing => MergeEntries([])
    case Present(VDict(d)) => MergeEntries(d)
    case Present(VStr(s)) => if s == [] then MergeEntries([]) else Raises(LengthError(0, 1), [])
    case Present(VList(xs)) => MergeCalls(PairsOf(xs))
    case Present(v) => Raises("TypeError: '" + TpName(v) + "' object is not iterable", [])
  }

  /** The entries a successful result adds to the context: all of its data, or the pairs
      `update` merged before it raised. */
  function DataOf(r: StageResult): seq<Entry> {
    match DataUpdate(r.data)
    case MergeEntries(d) => d
    case Raises(_, before) => before
  }

  /** The context after merging the data of each result of `ran` in turn. */
  function ContextAfter(ctx: seq<Entry>, ran: seq<StageResult>): seq<Entry>
    decreases |ran|
  {
    if ran == [] then ctx else Update(ContextAfter(ctx, ran[..|ran| - 1]), DataOf(ran[|ran| - 1]))
  }

  /** One more result merges its data into the context the earlier ones left. */
  lemma ContextAfterSnoc(ctx: seq<Entry>, ran: seq<StageResult>, r: StageResult)
    ensures ContextAfter(ctx, ran + [r]) == Update(ContextAfter(ctx, ran), DataOf(r))
  {
    assert (ran + [r])[..|ran|] == ran;
  }

  /** Every key the results of `ran` contribute. */
  function DataKeys(ran: seq<StageResult>): set<string>
    decreases |ran|
  {
    if ran == [] then {} else DataKeys(ran[..|ran| - 1]) + Keys(DataOf(ran[|ran| - 1]))
  }

  datatype PipelineEnd =
    | PipelineFailedAt(index: nat, agentName: string, message: string)
    | PipelineDone
    | PipelineRaised(error: string)

  /** The results of one execution, the context it leaves, and how it ended. */
  datatype PipelineTrace = PipelineTrace(ran: seq<StageResult>, context: seq<Entry>, end: PipelineEnd)

  /** The loop of `Pipeline.execute` from agent `i` on, over context `ctx`. */
  function PipelineLoop(slots: seq<Slot>, i: nat, ctx: seq<Entry>, ran: seq<StageResult>, now: int): PipelineTrace
    requires i <= |slots|
    decreases |slots| - i
  {
    if i == |slots| then PipelineTrace(ran, ctx, PipelineDone)
    else
      var r := RunSlot(slots[i], VDict(ctx), now);
      if r.status == "error" then
        PipelineTrace(ran + [r], ctx, PipelineFailedAt(i, slots[i].stage.className, r.message))
      else
        match DataUpdate(r.data)
        case Raises(e, before) => PipelineTrace(ran + [r], Update(ctx, before), PipelineRaised(e))
        case MergeEntries(d) => PipelineLoop(slots, i + 1, Update(ctx, d), ran + [r], now)
  }

  function RunPipeline(slots: seq<Slot>, initial: seq<Entry>, now: int): PipelineTrace {
    PipelineLoop(slots, 0, initial, [], now)
  }

  /** The loop runs each remaining agent at most once. */
  lemma {:induction false} PipelineLoopRuns(slots: seq<Slot>, i: nat, ctx: seq<Entry>, ran: seq<StageResult>, now: int)
    requires i <= |slots|
    ensures |ran| <= |PipelineLoop(slots, i, ctx, ran, now).ran| <= |ran| + |slots| - i
    decreases |slots| - i
  {
    if i < |slots| {
      var r := RunSlot(slots[i], VDict(ctx), now);
      if r.status != "error" && DataUpdate(r.data).MergeEntries? {
        PipelineLoopRuns(slots, i + 1, Update(ctx, DataUpdate(r.data).entries), ran + [r], now);
      }
    }
  }

  /** The first |ran| agents returned `ran`, each run on the context the results before it
      left, and none of them failed or made `update` raise. */
  ghost predicate MergedPrefix(slots: seq<Slot>, initial: seq<Entry>, ran: seq<StageResult>, now: int) {
    && |ran| <= |slots|
    && (forall j :: 0 <= j < |ran| ==> ran[j] == RunSlot(slots[j], VDict(ContextAfter(initial, ran[..j])), now))
    && (forall j :: 0 <= j < |ran| ==> ran[j].status != "error" && DataUpdate(ran[j].data).MergeEntries?)
  }

  /** How a trace ended agrees with its results and its context. */
  ghost predicate PipelineEndsAsReported(slots: seq<Slot>, initial: seq<Entry>, t: PipelineTrace, now: int) {
    match t.end
    case PipelineFailedAt(k, name, m) =>
      && k + 1 == |t.ran| <= |slots| && MergedPrefix(slots, initial, t.ran[..k], now)
      && t.ran[k] == RunSlot(slots[k], VDict(ContextAfter(initial, t.ran[..k])), now)
      && t.ran[k].status == "error" && m == t.ran[k].message && name == slots[k].stage.className
      && t.context == ContextAfter(initial, t.ran[..k])
    case PipelineRaised(e) =>
      && 1 <= |t.ran| <= |slots| && MergedPrefix(slots, initial, t.ran[..|t.ran| - 1], now)
      && t.ran[|t.ran| - 1] == RunSlot(slots[|t.ran| - 1], VDict(ContextAfter(initial, t.ran[..|t.ran| - 1])), now)
      && t.ran[|t.ran| - 1].status != "error" && DataUpdate(t.ran[|t.ran| - 1].data).Raises?
      && DataUpdate(t.ran[|t.ran| - 1].data).error == e
      && t.context == ContextAfter(initial, t.ran)
    case PipelineDone =>
      && |t.ran| == |slots| && MergedPrefix(slots, initial, t.ran, now)
      && t.context == ContextAfter(initial, t.ran)
  }

  /** The result of the next agent extends a merged prefix when it neither failed nor made
      `update` raise; the context then holds its data. */
  lemma MergedPrefixExtend(slots: seq<Slot>, initial: seq<Entry>, ran: seq<StageResult>, now: int)
    requires MergedPrefix(slots, initial, ran, now) && |ran| < |slots|
    requires var r := RunSlot(slots[|ran|], VDict(ContextAfter(initial, ran)), now);
      r.status != "error" && DataUpdate(r.data).MergeEntries?
    ensures var r := RunSlot(slots[|ran|], VDict(ContextAfter(initial, ran)), now);
      && MergedPrefix(slots, initial, ran + [r], now)
      && ContextAfter(initial, ran + [r]) == Update(ContextAfter(initial, ran), DataOf(r))
  {
    var r := RunSlot(slots[|ran|], VDict(ContextAfter(initial, ran)), now);
    var ran' := ran + [r];
    ContextAfterSnoc(initial, ran, r);
    forall j | 0 <= j < |ran'|
      ensures ran'[j] == RunSlot(slots[j], VDict(ContextAfter(initial, ran'[..j])), now)
    {
      if j < |ran| {
        assert ran'[..j] == ran[..j] && ran'[j] == ran[j];
      } else {
        assert ran'[..j] == ran && ran'[j] == r;
      }
    }
    forall j | 0 <= j < |ran'|
      ensures ran'[j].status != "error" && DataUpdate(ran'[j].data).MergeEntries?
    {
      if j < |ran| {
        assert ran'[j] == ran[j];
      }
    }
  }

  /** The next agent failed: the loop stops there and reports it. */
  lemma FailedAfter(slots: seq<Slot>, initial: seq<Entry>, ran: seq<StageResult>, now: int)
    requires MergedPrefix(slots, initial, ran, now) && |ran| < |slots|
    requires RunSlot(slots[|ran|], VDict(ContextAfter(initial, ran)), now).status == "error"
    ensures PipelineEndsAsReported(slots, initial, PipelineLoop(slots, |ran|, ContextAfter(initial, ran), ran, now), now)
  {
    var r := RunSlot(slots[|ran|], VDict(ContextAfter(initial, ran)), now);
    var t := PipelineLoop(slots, |ran|, ContextAfter(initial, ran), ran, now);
    assert t == PipelineTrace(ran + [r], ContextAfter(initial, ran), PipelineFailedAt(|ran|, slots[|ran|].stage.className, r.message));
    assert t.ran[..|ran|] == ran;
  }

  /** The next agent's data made `update` raise: the loop stops there. */
  lemma RaisedAfter(slots: seq<Slot>, initial: seq<Entry>, ran: seq<StageResult>, now: int)
    requires MergedPrefix(slots, initial, ran, now) && |ran| < |slots|
    requires var r := RunSlot(slots[|ran|], VDict(ContextAfter(initial, ran)), now);
      r.status != "error" && DataUpdate(r.data).Raises?
    ensures PipelineEndsAsReported(slots, initial, PipelineLoop(slots, |ran|, ContextAfter(initial, ran), ran, now), now)
  {
    var r := RunSlot(slots[|ran|], VDict(ContextAfter(initial, ran)), now);
    var t := PipelineLoop(slots, |ran|, ContextAfter(initial, ran), ran, now);
    assert t == PipelineTrace(ran + [r], Update(ContextAfter(initial, ran), DataOf(r)), PipelineRaised(DataUpdate(r.data).error));
    assert t.ran[..|ran|] == ran;
    ContextAfterSnoc(initial, ran, r);
  }

  lemma {:induction false} PipelineLoopFacts(slots: seq<Slot>, initial: seq<Entry>, ran: seq<StageResult>, now: int)
    requires MergedPrefix(slots, initial, ran, now)
    ensures PipelineEndsAsReported(slots, initial, PipelineLoop(slots, |ran|, ContextAfter(initial, ran), ran, now), now)
    decreases |slots| - |ran|
  {
    var ctx := ContextAfter(initial, ran);
    if |ran| < |slots| {
      var r := RunSlot(slots[|ran|], VDict(ctx), now);
      if r.status == "error" {
        FailedAfter(slots, initial, ran, now);
      } else if DataUpdate(r.data).Raises? {
        RaisedAfter(slots, initial, ran, now);
      } else {
        MergedPrefixExtend(slots, initial, ran, now);
        assert PipelineLoop(slots, |ran|, ctx, ran, now) == PipelineLoop(slots, |ran| + 1, Update(ctx, DataOf(r)), ran + [r], now);
        PipelineLoopFacts(slots, initial, ran + [r], now);
      }
    } else {
      assert ran[..|ran|] == ran;
    }
  }

  /** The pipeline's contract: agent j runs on the initial context merged with the data of
      results 0..j-1. On the first error result, at index k, the run stops, reports the agent's
      class name and message, and returns the context WITHOUT that result's data. When a
      result's data cannot be merged, the run raises, leaving in the context the pairs merged
      before the failing element. Otherwise every agent runs once and the final context holds
      every result's data. */
  lemma PipelineContract(slots: seq<Slot>, initial: seq<Entry>, now: int)
    ensures PipelineEndsAsReported(slots, initial, RunPipeline(slots, initial, now), now)
  {
    PipelineLoopFacts(slots, initial, [], now);
  }

  /** The keys of the context are the initial keys plus those the merged results brought. */
  lemma {:induction false} ContextAfterKeys(initial: seq<Entry>, ran: seq<StageResult>)
    ensures Keys(ContextAfter(initial, ran)) == Keys(initial) + DataKeys(ran)
    decreases |ran|
  {
    if ran != [] {
      ContextAfterKeys(initial, ran[..|ran| - 1]);
    }
  }

  /** One more merged result overwrites exactly the keys its data holds: they take the data's
      values, every other key keeps its value (or stays absent). */
  lemma ContextAfterStep(initial: seq<Entry>, ran: seq<StageResult>, r: StageResult, x: string)
    requires IsDict(DataOf(r))
    ensures Get(ContextAfter(initial, ran + [r]), x)
         == if x in Keys(DataOf(r)) then Get(DataOf(r), x) else Get(ContextAfter(initial, ran), x)
  {
    assert (ran + [r])[..|ran|] == ran;
    UpdateGet(ContextAfter(initial, ran), DataOf(r), x);
  }

  /** Merging keeps the context a dictionary: no key appears twice. */
  lemma {:induction false} ContextAfterKeepsDict(initial: seq<Entry>, ran: seq<StageResult>)
    requires IsDict(initial)
    ensures IsDict(ContextAfter(initial, ran))
    decreases |ran|
  {
    if ran != [] {
      ContextAfterKeepsDict(initial, ran[..|ran| - 1]);
      UpdateKeepsDict(ContextAfter(initial, ran[..|ran| - 1]), DataOf(ran[|ran| - 1]));
    }
  }

  /** What `execute` returns; the context in a report is the caller's own dict object. Data
      that `update` cannot merge makes `execute` raise instead of returning. */
  datatype PipelineReport =
    | PipelineFailed(pipelineId: string, failedAtAgent: nat, agentName: string, message: string, context: Dict)
    | PipelineSucceeded(pipelineId: string, finalContext: Dict)
    | PipelineException(error: string)

  /** Runs the agent of one slot; only the returned result matters to the pipeline's loop. */
  method RunAgent(agent: Agent, input: Value, now: int) returns (r: StageResult)
    modifies agent
    ensures r == RunSlot(Slot(agent.agentId, agent.stage), input, now)
  {
    r := agent.Run(input, now);
  }

  class Pipeline {
    const pipelineId: string
    const agents: seq<Agent>
    var context: Dict

    constructor (agents: seq<Agent>, requestedId: Option<string>, freshId: string)
      ensures pipelineId == if requestedId.Some? && requestedId.value != [] then requestedId.value else freshId
      ensures this.agents == agents && fresh(context) && context.entries == []
    {
      pipelineId := if requestedId.Some? && requestedId.value != [] then requestedId.value else freshId;
      this.agents := agents;
      context := new Dict([]);
    }

    /** `execute(initial_input)`: the pipeline adopts the caller's dict as its context and
        updates that very object in place. */
    method Execute(initialInput: Dict, now: int) returns (report: PipelineReport)
      modifies this, initialInput, set a | a in agents
      ensures context == initialInput
      ensures var t := RunPipeline(SlotsOf(agents), old(initialInput.entries), now);
        && initialInput.entries == t.context
        && report == match t.end
                     case PipelineFailedAt(k, name, m) => PipelineFailed(pipelineId, k, name, m, initialInput)
                     case PipelineDone => PipelineSucceeded(pipelineId, initialInput)
                     case PipelineRaised(tn) => PipelineException(tn)
      ensures var t := RunPipeline(SlotsOf(agents), old(initialInput.entries), now);
        && |t.ran| <= |agents|
        && forall a :: a in agents && a !in agents[..|t.ran|] ==> unchanged(a)
    {
      var slots := SlotsOf(agents);
      PipelineLoopRuns(slots, 0, old(initialInput.entries), [], now);
      context := initialInput;
      var ran: seq<StageResult> := [];
      var i := 0;
      while i < |agents|
        invariant 0 <= i <= |agents|
        invariant |ran| == i
        invariant context == initialInput
        invariant forall a :: a in agents && a !in agents[..i] ==> unchanged(a)
        invariant PipelineLoop(slots, i, initialInput.entries, ran, now)
               == RunPipeline(slots, old(initialInput.entries), now)
      {
        assert forall a :: a in agents[..i] ==> a in agents[..i + 1];
        var r := RunAgent(agents[i], VDict(context.entries), now);
        ran := ran + [r];
        if r.status == "error" {
          return PipelineFailed(pipelineId, i, agents[i].stage.className, r.message, context);
        }
        match DataUpdate(r.data) {
          case Raises(e, before) =>
            context.UpdateWith(before);
            return PipelineException(e);
          case MergeEntries(d) =>
            context.UpdateWith(d);
        }
        i := i + 1;
      }
      report := PipelineSucceeded(pipelineId, context);
    }
  }
}
