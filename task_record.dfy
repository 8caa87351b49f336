/** The service-level processing record (`app/service/pipeline.py`) that the document
    sequencer drives, and the module-level registry of records keyed by task id. */
module TaskRecord {
  import opened Values
  import Models

  /** A log entry of the service record: `metadata or {}` is stored, so it is never None. */
  datatype RecordLogEntry = RecordLogEntry(timestamp: int, level: string, message: string, metadata: seq<Entry>)

  /** The number of steps `get_progress` divides by. */
  const TotalSteps := 5

  /** `get_progress`; the percentage is the exact value of `completed / 5 * 100`. */
  datatype Progress = Progress(completed: nat, total: nat, percentage: int)

  class ProcessingPipeline {
    const taskId: string
    var agentConfig: Option<Models.AgentConfig>
    var currentStep: string
    var stepsCompleted: seq<string>
    var logs: seq<RecordLogEntry>
    var errors: seq<string>
    var startedAt: int
    var updatedAt: int

    constructor (taskId: string, now: int)
      ensures this.taskId == taskId && agentConfig == None && currentStep == "upload"
      ensures stepsCompleted == [] && logs == [] && errors == []
      ensures startedAt == now && updatedAt == now
    {
      this.taskId := taskId;
      agentConfig := None;
      currentStep := "upload";
      stepsCompleted := [];
      logs := [];
      errors := [];
      startedAt := now;
      updatedAt := now;
    }

    /** `add_log`: one entry at the end, and `updated_at` set to the clock. */
    method AddLog(level: string, message: string, metadata: Option<seq<Entry>>, now: int)
      modifies this`logs, this`updatedAt
      ensures logs == old(logs) + [RecordLogEntry(now, level, message, metadata.GetOr([]))]
      ensures updatedAt == now
    {
      logs := logs + [RecordLogEntry(now, level, message, metadata.GetOr([]))];
      updatedAt := now;
    }

    /** `add_error`: the message at the end of `errors` and one ERROR log entry. */
    method AddError(error: string, now: int)
      modifies this`logs, this`errors, this`updatedAt
      ensures errors == old(errors) + [error]
      ensures logs == old(logs) + [RecordLogEntry(now, "ERROR", error, [])]
      ensures updatedAt == now
    {
      errors := errors + [error];
      AddLog("ERROR", error, None, now);
    }

    /** `mark_step_complete`: the step at the end, earlier steps untouched. */
    method MarkStepComplete(step: string, now: int)
      modifies this`stepsCompleted, this`updatedAt
      ensures stepsCompleted == old(stepsCompleted) + [step]
      ensures updatedAt == now
    {
      stepsCompleted := stepsCompleted + [step];
      updatedAt := now;
    }

    function GetProgress(): (p: Progress)
      reads this
      ensures p.completed == |stepsCompleted| && p.total == TotalSteps
      ensures p.percentage * TotalSteps == p.completed * 100
    {
      Progress(|stepsCompleted|, TotalSteps, |stepsCompleted| * 20)
    }
  }

  /** `processing_pipelines`: the records by task id. */
  class Registry {
    var records: map<string, ProcessingPipeline>

    constructor ()
      ensures records == map[]
    {
      records := map[];
    }

    /** `processing_pipelines[task_id] = record`. */
    method Register(taskId: string, record: ProcessingPipeline)
      modifies this
      ensures records == old(records)[taskId := record]
    {
      records := records[taskId := record];
    }

    /** `processing_pipelines.get(task_id)`. */
    function Lookup(taskId: string): (r: Option<ProcessingPipeline>)
      reads this
      ensures r.Some? <==> taskId in records
      ensures r.Some? ==> r.value == records[taskId]
    {
      if taskId in records then Some(records[taskId]) else None
    }
  }

  /** Registering one id never changes what another id finds. */
  lemma RegisterOtherUnchanged(records: map<string, ProcessingPipeline>, taskId: string,
                               record: ProcessingPipeline, other: string)
    requires other != taskId
    ensures (other in records[taskId := record]) == (other in records)
    ensures other in records ==> records[taskId := record][other] == records[other]
  {
  }
}
