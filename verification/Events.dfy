/** Event vocabulary (src/minion/domain.py) and the completion evidence read from it. */
module Events {

  datatype EventType =
    | TaskCreated | TaskQueued | TaskStarted | TaskCompleted | TaskFailed | TaskCancelled
    | EnvironmentAllocated | EnvironmentReady | EnvironmentHeartbeat
    | RepositoryIndexed | SkillActivated
    | AgentStep | AgentMessage | UserMessage
    | ToolStarted | ToolCompleted | ToolFailed
    | ContextCompacted | CheckpointCreated | PrCreated

  /** `json` is the encoded payload; `tool`, `ok` and `output` are its fields of those names. */
  datatype Event = Event(kind: EventType, json: string, tool: string, ok: bool, output: string)

  function Plain(kind: EventType): Event {
    Event(kind, "{}", "", false, "")
  }

  const CONTROL_TOOLS: set<string> :=
    {"set_plan", "remember_constraint", "list_skills", "activate_skill", "finish_task"}

  predicate ShowsSuccess(e: Event, tool: string) {
    e.kind.ToolCompleted? && e.ok && e.tool == tool
  }

  /** Some event of the log reports a successful run of `tool`. */
  predicate Succeeded(log: seq<Event>, tool: string) {
    exists i :: 0 <= i < |log| && ShowsSuccess(log[i], tool)
  }

  /** What the `finish_task` gate looks for. */
  predicate Evidence(log: seq<Event>) {
    Succeeded(log, "run_command") && Succeeded(log, "git_diff")
  }

  lemma EvidenceGrows(log: seq<Event>, more: seq<Event>)
    requires Evidence(log)
    ensures Evidence(log + more)
  {
    var i :| 0 <= i < |log| && ShowsSuccess(log[i], "run_command");
    var j :| 0 <= j < |log| && ShowsSuccess(log[j], "git_diff");
    assert (log + more)[i] == log[i] && (log + more)[j] == log[j];
  }

  lemma EvidenceToolsAreExternal()
    ensures "run_command" !in CONTROL_TOOLS && "git_diff" !in CONTROL_TOOLS
  {
    assert "run_command"[0] == 'r' && "finish_task"[0] == 'f' && "list_skills"[0] == 'l';
    assert |"git_diff"| == 8 && |"set_plan"| == 8 && "set_plan"[0] == 's' && "git_diff"[0] == 'g';
  }
}
