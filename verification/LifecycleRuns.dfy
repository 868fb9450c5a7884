/**
 * Whole runs of the control plane: any number of tasks, processes, workers and requests.
 * The lemmas at the end are the lifecycle guarantees that hold in every run.
 */
module LifecycleRuns {
  import opened Prelude
  import opened TaskStates
  import opened TaskRepository
  import opened Events
  import opened Protocol
  import opened ProtocolSafety

  type System = map<TaskId, Task>

  datatype SystemStep =
    | Create(id: TaskId, p: Proc, c: CallId)
    | One(id: TaskId, a: Step)
    | CrashAll(p: Proc)
    | ScanAll(p: Proc, c: CallId)

  /** A crash and the startup scan concern every task at once, all other steps one task. */
  ghost predicate Next(s: System, a: SystemStep, s': System) {
    match a
    case Create(id, p, c) => id !in s && s' == s[id := NewTask(id, p, c)]
    case One(id, b) => id in s && Apply(s[id], b).Some? && s' == s[id := Apply(s[id], b).value]
    case CrashAll(p) =>
      s'.Keys == s.Keys && forall id :: id in s ==> Apply(s[id], Crash(p)) == Some(s'[id])
    case ScanAll(p, c) =>
      s'.Keys == s.Keys && forall id :: id in s ==> Apply(s[id], Reconcile(c, p)) == Some(s'[id])
  }

  ghost predicate Moves(s: System, s': System) {
    exists a :: Next(s, a, s')
  }

  ghost predicate IsRun(trace: seq<System>) {
    && |trace| > 0
    && trace[0] == map[]
    && forall i, j :: 0 <= i < j < |trace| && j == i + 1 ==> Moves(trace[i], trace[j])
  }

  ghost predicate AllSafe(s: System) {
    forall id :: id in s ==> Safe(s[id])
  }

  /** Logs and histories only grow. */
  ghost predicate Grows(s: Task, s': Task) {
    && s.history <= s'.history
    && s.log <= s'.log
  }

  lemma StepGrows(s: Task, a: Step)
    requires Apply(s, a).Some?
    ensures Grows(s, Apply(s, a).value)
  {
    hide ExecStep, CallStep;
  }

  /** A crash forgets what its process had in memory and nothing else: database, stream and other processes stay. */
  lemma CrashForgetsMemoryOnly(s: Task, p: Proc)
    ensures Apply(s, Crash(p)).Some?
    ensures var t := Apply(s, Crash(p)).value;
      && t.row == s.row && t.history == s.history && t.log == s.log && t.stream == s.stream && t.disturbed
      && (forall x :: x in t.execs <==> x in s.execs && s.execs[x].proc != p)
      && (forall x :: x in t.execs ==> t.execs[x] == s.execs[x])
      && (forall c :: c in t.calls <==> c in s.calls && s.calls[c].proc != p)
      && (forall c :: c in t.calls ==> t.calls[c] == s.calls[c])
      && (forall q, en :: (q, en) in t.dupAcks <==> (q, en) in s.dupAcks && q != p)
      && (forall q :: q in t.running <==> q in s.running && q != p)
  {
  }

  /** What one task goes through in a step of the whole system. */
  lemma NextOnTask(s: System, a: SystemStep, s': System, id: TaskId)
    requires Next(s, a, s') && AllSafe(s) && id in s'
    ensures Safe(s'[id])
    ensures id in s ==> Grows(s[id], s'[id])
  {
    hide Apply, Safe, NewTask, Grows;
    match a {
      case Create(t, p, c) =>
        NewTaskSafe(t, p, c);
        if id in s { assert Grows(s[id], s'[id]) by { SameGrows(s[id]); } }
      case One(t, b) =>
        StepKeepsSafe(s[t], b);
        StepGrows(s[t], b);
        if id in s { SameGrows(s[id]); }
      case CrashAll(p) =>
        StepKeepsSafe(s[id], Crash(p));
        StepGrows(s[id], Crash(p));
      case ScanAll(p, c) =>
        StepKeepsSafe(s[id], Reconcile(c, p));
        StepGrows(s[id], Reconcile(c, p));
    }
  }

  lemma SameGrows(s: Task)
    ensures Grows(s, s)
  {
  }

  lemma {:induction false} RunSafe(trace: seq<System>, i: nat)
    requires IsRun(trace) && i < |trace|
    ensures AllSafe(trace[i])
  {
    hide Next, Safe;
    if i > 0 {
      RunSafe(trace, i - 1);
      assert Moves(trace[i - 1], trace[i]);
      var a :| Next(trace[i - 1], a, trace[i]);
      forall id | id in trace[i] ensures Safe(trace[i][id]) {
        NextOnTask(trace[i - 1], a, trace[i], id);
      }
    }
  }

  lemma {:induction false} RunGrows(trace: seq<System>, i: nat, j: nat, id: TaskId)
    requires IsRun(trace) && i <= j < |trace| && id in trace[i]
    ensures id in trace[j] && Grows(trace[i][id], trace[j][id])
    decreases j
  {
    hide Safe, Apply;
    if i < j {
      RunGrows(trace, i, j - 1, id);
      RunSafe(trace, j - 1);
      assert Moves(trace[j - 1], trace[j]);
      var a :| Next(trace[j - 1], a, trace[j]);
      assert id in trace[j];
      NextOnTask(trace[j - 1], a, trace[j], id);
    }
  }

  /**
   * Linearizable transitions: at every moment of every run the committed statuses of a task
   * form a path of the transition table from CREATED, the version counts the steps of that
   * path, the row shows its end, and later paths only extend it.
   */
  lemma TransitionsAreLinearizable(trace: seq<System>, i: nat, j: nat, id: TaskId)
    requires IsRun(trace) && i <= j < |trace| && id in trace[i]
    ensures id in trace[j]
    ensures var s, s' := trace[i][id], trace[j][id];
      && IsPath(s.history) && IsPath(s'.history) && s.history <= s'.history
      && |s.history| == s.row.version + 1
      && s.history[s.row.version] == s.row.status
      && s.row.version <= s'.row.version
  {
    hide Next, LogOk, ExecsOk, CallsOk, RunningOk;
    RunSafe(trace, i);
    RunSafe(trace, j);
    RunGrows(trace, i, j, id);
    assert Safe(trace[i][id]) && Safe(trace[j][id]);
  }

  /** A task seen COMPLETED or CANCELLED keeps that status for the rest of the run. */
  lemma FinishedForever(trace: seq<System>, i: nat, j: nat, id: TaskId)
    requires IsRun(trace) && i <= j < |trace| && id in trace[i]
    requires Absorbing(trace[i][id].row.status)
    ensures id in trace[j] && trace[j][id].row.status == trace[i][id].row.status
  {
    TransitionsAreLinearizable(trace, i, j, id);
    TransitionsAreLinearizable(trace, j, j, id);
    var s, s' := trace[i][id], trace[j][id];
    AbsorbingStays(s'.history, s.row.version, s'.row.version);
  }

  /**
   * Terminal agreement: once TASK_COMPLETED (or TASK_CANCELLED) is in the log, the row is
   * COMPLETED (CANCELLED) now and at every later moment, so no log ever holds both.
   */
  lemma TerminalEventsAgree(trace: seq<System>, i: nat, j: nat, id: TaskId)
    requires IsRun(trace) && i <= j < |trace| && id in trace[i]
    ensures id in trace[j]
    ensures Logged(trace[i][id].log, TaskCompleted) ==>
      trace[j][id].row.status.Completed? && !Logged(trace[j][id].log, TaskCancelled)
    ensures Logged(trace[i][id].log, TaskCancelled) ==>
      trace[j][id].row.status.Cancelled? && !Logged(trace[j][id].log, TaskCompleted)
  {
    hide Next, IsRun, ExecsOk, CallsOk, RunningOk, HistoryOk, Grows, Logged;
    RunSafe(trace, i);
    RunSafe(trace, j);
    RunGrows(trace, i, j, id);
    assert Safe(trace[i][id]) && Safe(trace[j][id]);
    if Absorbing(trace[i][id].row.status) {
      FinishedForever(trace, i, j, id);
    }
  }

  /**
   * Evidence before completion: a COMPLETED task has reported successes of `run_command`
   * and `git_diff` in its log, they precede every TASK_COMPLETED event, and both tools
   * really succeeded in a workspace of the task.
   */
  lemma CompletionIsBacked(trace: seq<System>, i: nat, id: TaskId)
    requires IsRun(trace) && i < |trace| && id in trace[i]
    ensures var s := trace[i][id];
      && (s.row.status.Completed? ==>
            && Evidence(s.log)
            && ToolRun("run_command", true) in s.runs
            && ToolRun("git_diff", true) in s.runs)
      && forall k :: 0 <= k < |s.log| && s.log[k].kind.TaskCompleted? ==>
           && s.row.status.Completed?
           && Evidence(s.log[..k])
  {
    hide Next, IsRun, ExecsOk, CallsOk, RunningOk, HistoryOk;
    RunSafe(trace, i);
    var s := trace[i][id];
    assert Safe(s);
    EvidenceToolsAreExternal();
    if s.row.status.Completed? {
      var k :| 0 <= k < |s.log| && ShowsSuccess(s.log[k], "run_command");
      var m :| 0 <= m < |s.log| && ShowsSuccess(s.log[m], "git_diff");
      assert ToolRun(s.log[k].tool, true) in s.runs && ToolRun(s.log[m].tool, true) in s.runs;
    }
  }

  /**
   * Safe destruction: a workspace is deleted only when its task is COMPLETED or CANCELLED,
   * so a task that can still be retried or resumed never had a workspace deleted.
   */
  lemma DestroyedMeansFinished(trace: seq<System>, i: nat, j: nat, id: TaskId)
    requires IsRun(trace) && i <= j < |trace| && id in trace[i]
    requires exists env :: env in trace[i][id].places && trace[i][id].places[env].Deleted?
    ensures id in trace[j] && Absorbing(trace[j][id].row.status)
  {
    hide Next, IsRun, ExecsOk, CallsOk, RunningOk, HistoryOk, LogOk;
    RunSafe(trace, i);
    assert Safe(trace[i][id]);
    FinishedForever(trace, i, j, id);
  }
}
