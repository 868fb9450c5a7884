/**
 * What a row says about how its task ended (src/minion/repositories.py, `transition`, and
 * its callers in src/minion/orchestrator.py): in every run a result is stored exactly while
 * a task is COMPLETED and an error exactly while it is FAILED.
 */
module TaskOutcomes {
  import opened Prelude
  import opened TaskStates
  import opened TaskRepository
  import opened Events
  import opened Protocol
  import opened ProtocolSafety
  import opened LifecycleRuns

  predicate Filled(row: Row) {
    && (row.result.Some? <==> row.status.Completed?)
    && (row.error.Some? <==> row.status.Failed?)
  }

  /** What the callers of `transition` pass: a result to complete with, an error to fail with. */
  predicate Fitting(c: Change) {
    && (c.result.Some? <==> c.target.Completed?)
    && (c.error.Some? <==> c.target.Failed?)
  }

  lemma CommitFills(row: Row, history: seq<Status>, view: Row, c: Change)
    requires HistoryOk(row, history) && ViewOk(history, view) && Filled(row) && Fitting(c)
    ensures Commit(row, view, c).Ok? ==> Filled(Commit(row, view, c).value)
  {
    if Commit(row, view, c).Ok? {
      CommitContinuesPath(row, history, view, c);
    }
  }

  lemma ExecStepFills(row: Row, history: seq<Status>, log: seq<Event>, runs: seq<ToolRun>, e: Exec, a: Action)
    requires HistoryOk(row, history) && ViewOk(history, e.view) && Filled(row)
    requires ExecStep(row, log, runs, e, a).Some?
    ensures Filled(ExecStep(row, log, runs, e, a).value.row)
  {
    hide Evidence, CanTransition;
    match a
    case ClaimTask => CommitFills(row, history, e.view, To(Provisioning));
    case BindTask => CommitFills(row, history, e.view, Change(Running, e.ws, None, None));
    case CompleteTask(result) => CommitFills(row, history, e.view, Change(Completed, None, None, Some(result)));
    case FailTask(error) => CommitFills(row, history, e.view, Change(Failed, None, Some(error), None));
    case CancelTask => CommitFills(row, history, e.view, To(Cancelled));
    case _ =>
  }

  lemma CallStepFills(row: Row, history: seq<Status>, call: Call)
    requires HistoryOk(row, history) && CallOk(row, history, call) && Filled(row)
    ensures Filled(CallStep(row, call.phase).row)
  {
    hide CanTransition;
    match call.phase {
      case Submitting(view) => CommitFills(row, history, view, To(Queued));
      case Retrying(view) => CommitFills(row, history, view, To(Queued));
      case CancelRequested(view) => CommitFills(row, history, view, To(Cancelling));
      case Finalizing(view) => CommitFills(row, history, view, To(Cancelled));
      case _ =>
    }
  }

  lemma StepKeepsFilled(s: Task, a: Step)
    requires Safe(s) && Filled(s.row) && Apply(s, a).Some?
    ensures Filled(Apply(s, a).value.row)
  {
    hide Filled, ExecStep, CallStep, HistoryOk, LogOk, RunningOk;
    match a {
      case ExecDo(x, act) =>
        assert ExecOk(s.row, s.history, s.log, s.execs[x]);
        ExecStepFills(s.row, s.history, s.log, s.runs, s.execs[x], act);
      case CallDo(c) =>
        assert CallOk(s.row, s.history, s.calls[c]);
        CallStepFills(s.row, s.history, s.calls[c]);
      case _ =>
    }
  }

  ghost predicate AllFilled(s: System) {
    forall id :: id in s ==> Filled(s[id].row)
  }

  lemma NextKeepsFilled(s: System, a: SystemStep, s': System)
    requires Next(s, a, s') && AllSafe(s) && AllFilled(s)
    ensures AllFilled(s')
  {
    hide Apply, Safe, Filled;
    forall id | id in s' ensures Filled(s'[id].row) {
      match a {
        case Create(t, p, c) => NewIsFilled(t, p, c);
        case One(t, b) => StepKeepsFilled(s[t], b);
        case CrashAll(p) => StepKeepsFilled(s[id], Crash(p));
        case ScanAll(p, c) => StepKeepsFilled(s[id], Reconcile(c, p));
      }
    }
  }

  lemma NewIsFilled(id: TaskId, p: Proc, c: CallId)
    ensures Filled(NewTask(id, p, c).row)
  {
  }

  /**
   * In every run a task holds a result if and only if it is COMPLETED and an error if and
   * only if it is FAILED, so a retried or cancelled task holds neither.
   */
  lemma {:induction false} OutcomesAreStored(trace: seq<System>, i: nat, id: TaskId)
    requires IsRun(trace) && i < |trace| && id in trace[i]
    ensures trace[i][id].row.result.Some? <==> trace[i][id].row.status.Completed?
    ensures trace[i][id].row.error.Some? <==> trace[i][id].row.status.Failed?
  {
    hide Next;
    RunFilled(trace, i);
    assert Filled(trace[i][id].row);
  }

  lemma {:induction false} RunFilled(trace: seq<System>, i: nat)
    requires IsRun(trace) && i < |trace|
    ensures AllFilled(trace[i])
  {
    hide Next, Safe;
    if i > 0 {
      RunFilled(trace, i - 1);
      RunSafe(trace, i - 1);
      assert Moves(trace[i - 1], trace[i]);
      var a :| Next(trace[i - 1], a, trace[i]);
      NextKeepsFilled(trace[i - 1], a, trace[i]);
    }
  }
}
