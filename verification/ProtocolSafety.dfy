/**
 * What every interleaving keeps, with no assumption on when requests arrive: committed
 * statuses follow the transition table, terminal events agree with the row, completion is
 * backed by logged evidence, and only finished tasks lose their workspace.
 */
module ProtocolSafety {
  import opened Prelude
  import opened TaskStates
  import opened TaskRepository
  import opened Events
  import opened Protocol
  import WorkQueue

  ghost predicate Logged(log: seq<Event>, kind: EventType) {
    exists i :: 0 <= i < |log| && log[i].kind == kind
  }

  /** Every reported success of a sandbox tool comes from a run that succeeded. */
  ghost predicate Backed(log: seq<Event>, runs: seq<ToolRun>) {
    forall i :: 0 <= i < |log| && log[i].kind.ToolCompleted? && log[i].ok && log[i].tool !in CONTROL_TOOLS
      ==> ToolRun(log[i].tool, true) in runs
  }

  ghost predicate CompletedAfterEvidence(log: seq<Event>) {
    forall i :: 0 <= i < |log| && log[i].kind.TaskCompleted? ==> Evidence(log[..i])
  }

  ghost predicate LogOk(row: Row, log: seq<Event>, runs: seq<ToolRun>) {
    && (Logged(log, TaskCompleted) ==> row.status.Completed?)
    && (Logged(log, TaskCancelled) ==> row.status.Cancelled?)
    && (row.status.Completed? ==> Evidence(log))
    && CompletedAfterEvidence(log)
    && Backed(log, runs)
  }

  ghost predicate ExecOk(row: Row, history: seq<Status>, log: seq<Event>, e: Exec) {
    && ViewOk(history, e.view)
    && (e.pc.Report? ==> row.status.Completed?)
    && (e.pc.CancelLog? ==> row.status.Cancelled?)
    && (e.pc.Finish? ==> Evidence(log))
    && (e.pc.Release? && e.pc.destroy ==> Absorbing(row.status))
  }

  ghost predicate CallOk(row: Row, history: seq<Status>, call: Call) {
    match call.phase
    case Submitting(view) => ViewOk(history, view) && view.status.Created?
    case Retrying(view) => ViewOk(history, view) && view.status.Failed?
    case PutDue => true
    case CancelRequested(view) => ViewOk(history, view)
    case Signalling(view) => ViewOk(history, view)
    case Finalizing(view) => ViewOk(history, view)
    case Reporting => row.status.Cancelled?
  }

  /** `_running` names exactly the executions that exist, one per process. */
  ghost predicate RunningOk(s: Task) {
    && (forall p :: p in s.running ==> s.running[p] in s.execs && s.execs[s.running[p]].proc == p)
    && (forall x :: x in s.execs ==> s.execs[x].proc in s.running && s.running[s.execs[x].proc] == x)
  }

  ghost predicate ExecsOk(s: Task) {
    forall x :: x in s.execs ==> ExecOk(s.row, s.history, s.log, s.execs[x])
  }

  ghost predicate CallsOk(s: Task) {
    forall c :: c in s.calls ==> CallOk(s.row, s.history, s.calls[c])
  }

  ghost predicate DeletedOk(s: Task) {
    forall env :: env in s.places && s.places[env].Deleted? ==> Absorbing(s.row.status)
  }

  ghost predicate Core(s: Task) {
    && HistoryOk(s.row, s.history)
    && LogOk(s.row, s.log, s.runs)
    && ExecsOk(s)
    && CallsOk(s)
    && DeletedOk(s)
  }

  ghost predicate Safe(s: Task) {
    Core(s) && RunningOk(s)
  }

  /** The row either keeps status and version or takes one recorded legal transition. */
  ghost predicate Evolves(row: Row, history: seq<Status>, row': Row) {
    || (row'.version == row.version && row'.status == row.status)
    || (row'.version == row.version + 1 && CanTransition(row.status, row'.status))
  }

  lemma EvolvesKeepsHistory(row: Row, history: seq<Status>, row': Row)
    requires HistoryOk(row, history) && Evolves(row, history, row')
    ensures HistoryOk(row', Recorded(history, row, row'))
    ensures history <= Recorded(history, row, row')
    ensures Absorbing(row.status) ==> row'.status == row.status
  {
    if row'.version != row.version {
      ExtendPath(history, row'.status);
    }
  }

  /** Appending events keeps the log invariant when each new event is justified by the new row. */
  lemma AppendKeepsLog(row: Row, log: seq<Event>, runs: seq<ToolRun>, row': Row, ev: Event, more: seq<ToolRun>)
    requires LogOk(row, log, runs)
    requires Absorbing(row.status) ==> row'.status == row.status
    requires row'.status.Completed? ==> Evidence(log)
    requires ev.kind.TaskCompleted? ==> row'.status.Completed?
    requires ev.kind.TaskCancelled? ==> row'.status.Cancelled?
    requires ev.kind.ToolCompleted? && ev.ok && ev.tool !in CONTROL_TOOLS ==> ToolRun(ev.tool, true) in runs + more
    ensures LogOk(row', log + [ev], runs + more)
  {
    var log' := log + [ev];
    if Evidence(log) {
      EvidenceGrows(log, [ev]);
    }
    forall i | 0 <= i < |log'| && log'[i].kind.TaskCompleted?
      ensures Evidence(log'[..i])
    {
      if i < |log| {
        assert log'[..i] == log[..i];
      } else {
        assert log'[..i] == log;
      }
    }
    forall kind | Logged(log', kind)
      ensures Logged(log, kind) || kind == ev.kind
    {
      var i :| 0 <= i < |log'| && log'[i].kind == kind;
      if i < |log| {
        assert log[i].kind == kind;
      }
    }
  }

  lemma QuietKeepsLog(row: Row, log: seq<Event>, runs: seq<ToolRun>, row': Row, more: seq<ToolRun>)
    requires LogOk(row, log, runs)
    requires Absorbing(row.status) ==> row'.status == row.status
    requires row'.status.Completed? ==> Evidence(log)
    ensures LogOk(row', log, runs + more)
  {
  }

  /** A step of one execution, looked at on its own. */
  lemma ExecStepSound(row: Row, history: seq<Status>, log: seq<Event>, runs: seq<ToolRun>, e: Exec, a: Action)
    requires HistoryOk(row, history) && LogOk(row, log, runs) && ExecOk(row, history, log, e)
    requires ExecStep(row, log, runs, e, a).Some?
    ensures var l := ExecStep(row, log, runs, e, a).value;
      && Evolves(row, history, l.row)
      && LogOk(l.row, log + l.emit, runs + l.runs)
      && ExecOk(l.row, Recorded(history, row, l.row), log + l.emit, l.exec)
  {
    hide ExecStep, ExecOk, LogOk, HistoryOk, IsPath;
    ExecRowSound(row, history, log, runs, e, a);
    ExecEmitSound(row, history, log, runs, e, a);
    ExecPcSound(row, history, log, runs, e, a);
  }

  lemma ExecPcSound(row: Row, history: seq<Status>, log: seq<Event>, runs: seq<ToolRun>, e: Exec, a: Action)
    requires HistoryOk(row, history) && ExecOk(row, history, log, e)
    requires ExecStep(row, log, runs, e, a).Some?
    ensures var l := ExecStep(row, log, runs, e, a).value;
      ExecOk(l.row, Recorded(history, row, l.row), log + l.emit, l.exec)
  {
    hide IsPath, CanTransition, Succeeded;
    var l := ExecStep(row, log, runs, e, a).value;
    ExecRowSound(row, history, log, runs, e, a);
    EvolvesKeepsHistory(row, history, l.row);
    assert |l.emit| <= 1;
    assert l.exec.pc.Finish? ==> l.emit == [] && log + l.emit == log;
  }

  lemma ExecEmitSound(row: Row, history: seq<Status>, log: seq<Event>, runs: seq<ToolRun>, e: Exec, a: Action)
    requires HistoryOk(row, history) && LogOk(row, log, runs) && ExecOk(row, history, log, e)
    requires ExecStep(row, log, runs, e, a).Some?
    ensures var l := ExecStep(row, log, runs, e, a).value;
      LogOk(l.row, log + l.emit, runs + l.runs)
  {
    hide IsPath, CanTransition, Backed, CompletedAfterEvidence, Succeeded, Logged;
    var l := ExecStep(row, log, runs, e, a).value;
    ExecRowSound(row, history, log, runs, e, a);
    EvolvesKeepsHistory(row, history, l.row);
    if l.emit == [] {
      assert log + l.emit == log;
      QuietKeepsLog(row, log, runs, l.row, l.runs);
    } else {
      assert l.emit == [l.emit[0]];
      AppendKeepsLog(row, log, runs, l.row, l.emit[0], l.runs);
    }
  }

  /** The row part of an execution step. */
  lemma ExecRowSound(row: Row, history: seq<Status>, log: seq<Event>, runs: seq<ToolRun>, e: Exec, a: Action)
    requires HistoryOk(row, history) && ExecOk(row, history, log, e)
    requires ExecStep(row, log, runs, e, a).Some?
    ensures var l := ExecStep(row, log, runs, e, a).value;
      && Evolves(row, history, l.row)
      && ViewOk(Recorded(history, row, l.row), l.exec.view)
      && (l.row.status.Completed? && !row.status.Completed? ==> Evidence(log))
  {
    var l := ExecStep(row, log, runs, e, a).value;
    match a
    case ClaimTask => UpdateSound(row, history, e, To(Provisioning), Prepare, FailRead);
    case BindTask =>
      if e.view.status.Provisioning? {
        UpdateSound(row, history, e, Change(Running, e.ws, None, None), Work, FailRead);
      }
    case CompleteTask(result) =>
      UpdateSound(row, history, e, Change(Completed, None, None, Some(result)), Report, FailRead);
    case FailTask(error) =>
      UpdateSound(row, history, e, Change(Failed, None, Some(error), None), FailLog, Cleanup(Fatal));
    case CancelTask => UpdateSound(row, history, e, To(Cancelled), CancelLog, Cleanup(Fatal));
    case _ =>
  }

  lemma UpdateSound(row: Row, history: seq<Status>, e: Exec, c: Change, onOk: Pc, onError: Pc)
    requires HistoryOk(row, history) && ViewOk(history, e.view)
    ensures var l := Update(row, e, c, onOk, onError);
      && Evolves(row, history, l.row)
      && ViewOk(Recorded(history, row, l.row), l.exec.view)
      && (l.row != row ==> l.row.status == c.target)
  {
    if Commit(row, e.view, c).Ok? {
      CommitContinuesPath(row, history, e.view, c);
    }
  }

  /** The row, log and runs move under everybody else's feet. */
  lemma AdvanceKeepsCore(s: Task, row: Row, emit: seq<Event>, more: seq<ToolRun>)
    requires Core(s) && Evolves(s.row, s.history, row)
    requires LogOk(row, s.log + emit, s.runs + more)
    ensures Core(Advance(s, row, emit, more))
  {
    var s' := Advance(s, row, emit, more);
    EvolvesKeepsHistory(s.row, s.history, row);
    if Evidence(s.log) {
      EvidenceGrows(s.log, emit);
    }
    forall x | x in s'.execs
      ensures ExecOk(s'.row, s'.history, s'.log, s'.execs[x])
    {
      assert ExecOk(s.row, s.history, s.log, s.execs[x]);
    }
    forall c | c in s'.calls
      ensures CallOk(s'.row, s'.history, s'.calls[c])
    {
      assert CallOk(s.row, s.history, s.calls[c]);
    }
  }

  lemma SetExecKeepsSafe(s: Task, x: ExecId, e: Exec)
    requires Safe(s) && x in s.execs && e.proc == s.execs[x].proc
    requires ExecOk(s.row, s.history, s.log, e)
    ensures Safe(SetExec(s, x, e))
  {
    hide LogOk, CallOk, ExecOk, HistoryOk;
  }

  lemma SetCallKeepsSafe(s: Task, c: CallId, p: Proc, phase: Option<Phase>)
    requires Safe(s)
    requires phase.Some? ==> CallOk(s.row, s.history, Call(p, phase.value))
    ensures Safe(SetCall(s, c, p, phase))
  {
    hide LogOk, CallOk, ExecOk, HistoryOk;
  }

  /** Queue contents and the disturbance flag are nobody's evidence. */
  lemma QueueEditKeepsSafe(s: Task, s': Task)
    requires Safe(s)
    requires s' == s.(stream := s'.stream, dupAcks := s'.dupAcks, disturbed := s'.disturbed)
    ensures Safe(s')
  {
    hide LogOk, CallOk, ExecOk, HistoryOk;
  }

  lemma ExecDoKeepsSafe(s: Task, x: ExecId, a: Action)
    requires Safe(s) && x in s.execs && AfterExec(s, x, a).Some?
    ensures Safe(AfterExec(s, x, a).value)
  {
    hide ExecStep, LogOk, ExecOk, CallOk, HistoryOk;
    var e := s.execs[x];
    var l := ExecStep(s.row, s.log, s.runs, e, a).value;
    ExecStepSound(s.row, s.history, s.log, s.runs, e, a);
    AdvanceKeepsCore(s, l.row, l.emit, l.runs);
    ExecKeepsProcess(s.row, s.log, s.runs, e, a);
    ReleaseOnlyWhenFinished(s.row, s.history, s.log, s.runs, e, a);
    SetExecKeepsSafe(Advance(s, l.row, l.emit, l.runs), x, l.exec);
  }

  lemma ExecKeepsProcess(row: Row, log: seq<Event>, runs: seq<ToolRun>, e: Exec, a: Action)
    requires ExecStep(row, log, runs, e, a).Some?
    ensures var e' := ExecStep(row, log, runs, e, a).value.exec; e'.proc == e.proc && e'.entry == e.entry
  {
  }

  lemma ReleaseOnlyWhenFinished(row: Row, history: seq<Status>, log: seq<Event>, runs: seq<ToolRun>, e: Exec, a: Action)
    requires ExecOk(row, history, log, e)
    requires ExecStep(row, log, runs, e, a).Some?
    ensures e.pc.Release? && e.pc.destroy && a.ReleaseWorkspace? ==>
      Absorbing(ExecStep(row, log, runs, e, a).value.row.status)
  {
  }

  lemma CallStepSound(row: Row, history: seq<Status>, log: seq<Event>, runs: seq<ToolRun>, call: Call)
    requires HistoryOk(row, history) && LogOk(row, log, runs) && CallOk(row, history, call)
    ensures var l := CallStep(row, call.phase);
      && Evolves(row, history, l.row)
      && LogOk(l.row, log + l.emit, runs + [])
      && (l.phase.Some? ==> CallOk(l.row, Recorded(history, row, l.row), Call(call.proc, l.phase.value)))
  {
    hide CallOk, HistoryOk, LogOk, IsPath;
    var l := CallStep(row, call.phase);
    CallRowSound(row, history, call);
    CallLogSound(row, history, log, runs, call);
  }

  lemma CallRowSound(row: Row, history: seq<Status>, call: Call)
    requires HistoryOk(row, history) && CallOk(row, history, call)
    ensures var l := CallStep(row, call.phase);
      && Evolves(row, history, l.row)
      && (l.row.status.Completed? ==> row.status.Completed?)
      && (l.phase.Some? ==> CallOk(l.row, Recorded(history, row, l.row), Call(call.proc, l.phase.value)))
  {
    hide IsPath, CanTransition;
    match call.phase {
      case Submitting(view) => CallCommitSound(row, history, view, Queued);
      case Retrying(view) => CallCommitSound(row, history, view, Queued);
      case CancelRequested(view) => CallCommitSound(row, history, view, Cancelling);
      case Finalizing(view) => CallCommitSound(row, history, view, Cancelled);
      case _ =>
    }
  }

  lemma CallLogSound(row: Row, history: seq<Status>, log: seq<Event>, runs: seq<ToolRun>, call: Call)
    requires HistoryOk(row, history) && LogOk(row, log, runs) && CallOk(row, history, call)
    ensures LogOk(CallStep(row, call.phase).row, log + CallStep(row, call.phase).emit, runs + [])
  {
    hide Backed, CompletedAfterEvidence, Logged, Evidence, IsPath, CanTransition;
    var l := CallStep(row, call.phase);
    CallRowSound(row, history, call);
    EvolvesKeepsHistory(row, history, l.row);
    if l.emit == [] {
      assert log + l.emit == log;
      QuietKeepsLog(row, log, runs, l.row, []);
    } else {
      AppendKeepsLog(row, log, runs, l.row, Plain(TaskCancelled), []);
    }
  }

  lemma CallCommitSound(row: Row, history: seq<Status>, view: Row, target: Status)
    requires HistoryOk(row, history) && ViewOk(history, view)
    ensures Commit(row, view, To(target)).Ok? ==>
      var next := Commit(row, view, To(target)).value;
      && next.status == target && Evolves(row, history, next)
      && ViewOk(Recorded(history, row, next), next)
  {
    if Commit(row, view, To(target)).Ok? {
      CommitContinuesPath(row, history, view, To(target));
    }
  }

  lemma SignalKeepsSafe(s: Task, x: ExecId)
    requires Safe(s) && x in s.execs
    ensures Safe(Signal(s, x))
  {
    hide LogOk, CallOk, HistoryOk;
    SetExecKeepsSafe(s, x, s.execs[x].(signalled := true));
  }

  lemma CallDoKeepsSafe(s: Task, c: CallId)
    requires Safe(s) && c in s.calls
    ensures Safe(AfterCall(s, c))
  {
    hide LogOk, CallStep, ExecOk, CallOk, HistoryOk, Advance, SetCall, Signal;
    var call := s.calls[c];
    if call.phase.PutDue? {
      var s' := s.(stream := WorkQueue.Put(s.stream, s.id));
      QueueEditKeepsSafe(s, s');
      SetCallKeepsSafe(s', c, call.proc, None);
    } else if call.phase.Signalling? && call.proc in s.running && s.running[call.proc] in s.execs {
      SignalKeepsSafe(s, s.running[call.proc]);
      SetCallKeepsSafe(Signal(s, s.running[call.proc]), c, call.proc, None);
    } else {
      CallAdvanceKeepsSafe(s, c);
    }
  }

  lemma CallAdvanceKeepsSafe(s: Task, c: CallId)
    requires Safe(s) && c in s.calls
    ensures var l := CallStep(s.row, s.calls[c].phase);
      Safe(SetCall(Advance(s, l.row, l.emit, []), c, s.calls[c].proc, l.phase))
  {
    hide LogOk, CallStep, ExecOk, CallOk, HistoryOk;
    var l := CallStep(s.row, s.calls[c].phase);
    CallStepSound(s.row, s.history, s.log, s.runs, s.calls[c]);
    AdvanceKeepsCore(s, l.row, l.emit, []);
    SetCallKeepsSafe(Advance(s, l.row, l.emit, []), c, s.calls[c].proc, l.phase);
  }

  lemma OtherEventKeepsSafe(s: Task, ev: Event)
    requires Safe(s) && Apply(s, OtherEvent(ev)).Some?
    ensures Safe(Apply(s, OtherEvent(ev)).value)
  {
    hide ExecsOk, CallsOk, HistoryOk, Evidence, Backed, CompletedAfterEvidence, Logged, AfterExec, AfterCall;
    AppendKeepsLog(s.row, s.log, s.runs, s.row, ev, []);
    AdvanceKeepsCore(s, s.row, [ev], []);
    assert Apply(s, OtherEvent(ev)).value == Advance(s, s.row, [ev], []);
  }

  lemma ReceiveKeepsSafe(s: Task, en: EntryId, p: Proc, x: ExecId)
    requires Safe(s) && en in s.stream.entries && x !in s.execs
    ensures Safe(Receive(s, en, p, x))
  {
    hide LogOk, CallOk, HistoryOk, ExecsOk, CallsOk, RunningOk;
    if p in s.running {
      QueueEditKeepsSafe(s, Receive(s, en, p, x));
    } else {
      ReceiveExecs(s, en, p, x);
      ReceiveRunning(s, en, p, x);
      ReceiveCalls(s, en, p, x);
    }
  }

  lemma ReceiveExecs(s: Task, en: EntryId, p: Proc, x: ExecId)
    requires ExecsOk(s) && HistoryOk(s.row, s.history) && en in s.stream.entries && p !in s.running
    ensures ExecsOk(Receive(s, en, p, x))
  {
    hide IsPath, Evidence;
  }

  lemma ReceiveRunning(s: Task, en: EntryId, p: Proc, x: ExecId)
    requires RunningOk(s) && en in s.stream.entries && p !in s.running && x !in s.execs
    ensures RunningOk(Receive(s, en, p, x))
  {
  }

  lemma ReceiveCalls(s: Task, en: EntryId, p: Proc, x: ExecId)
    requires CallsOk(s) && en in s.stream.entries && p !in s.running
    ensures CallsOk(Receive(s, en, p, x))
  {
    hide CallOk;
  }

  lemma CrashKeepsSafe(s: Task, p: Proc)
    requires Safe(s)
    ensures Safe(CrashProcess(s, p))
  {
    hide LogOk, CallOk, ExecOk;
  }

  lemma DropKeepsSafe(s: Task, x: ExecId)
    requires Safe(s) && x in s.execs
    ensures Safe(DropExec(s, x))
  {
    hide LogOk, CallOk, ExecOk;
  }

  /** A request starts from the row as it is now. */
  lemma BeginKeepsSafe(s: Task, a: Step)
    requires a.BeginRetry? || a.BeginCancel? || a.Reconcile?
    requires Safe(s) && Apply(s, a).Some?
    ensures Safe(Apply(s, a).value)
  {
    hide LogOk, ExecOk, AfterExec, AfterCall, CrashProcess, Receive, DropExec, SetCall;
    match a {
      case BeginRetry(c, p) =>
        if s.row.status.Failed? { SetCallKeepsSafe(s, c, p, Some(Retrying(s.row))); }
      case BeginCancel(c, p) =>
        if !Terminal(s.row.status) { SetCallKeepsSafe(s, c, p, Some(CancelRequested(s.row))); }
      case Reconcile(c, p) =>
        QueueEditKeepsSafe(s, s.(disturbed := false));
        SetCallKeepsSafe(s.(disturbed := false), c, p, Some(PutDue));
    }
  }

  lemma WorkerKeepsSafe(s: Task, a: Step)
    requires a.DupAck? || a.DupAckFails? || a.AckItem? || a.AckFails? || a.Pop? || a.WorkerDies? || a.CallDies?
    requires Safe(s) && Apply(s, a).Some?
    ensures Safe(Apply(s, a).value)
  {
    hide LogOk, AfterExec, AfterCall, CrashProcess, Receive, DropExec, SetExec, CallOk, HistoryOk, RunningOk;
    var s' := Apply(s, a).value;
    match a {
      case DupAck(p, en) => QueueEditKeepsSafe(s, s');
      case DupAckFails(p, en) => QueueEditKeepsSafe(s, s');
      case AckItem(x) =>
        var t := s.(stream := WorkQueue.Ack(s.stream, s.execs[x].entry));
        QueueEditKeepsSafe(s, t);
        SetExecKeepsSafe(t, x, t.execs[x].(pc := Acked));
      case AckFails(x) => DropKeepsSafe(s, x); QueueEditKeepsSafe(DropExec(s, x), s');
      case Pop(x) => DropKeepsSafe(s, x);
      case WorkerDies(x) => DropKeepsSafe(s, x); QueueEditKeepsSafe(DropExec(s, x), s');
      case CallDies(c) =>
        SetCallKeepsSafe(s, c, 0, None);
        QueueEditKeepsSafe(SetCall(s, c, 0, None), s');
    }
  }

  /** Every step of every participant keeps the invariant. */
  lemma StepKeepsSafe(s: Task, a: Step)
    requires Safe(s) && Apply(s, a).Some?
    ensures Safe(Apply(s, a).value)
  {
    hide Safe, AfterExec, AfterCall, CrashProcess, Receive, DropExec, SetCall, SetExec;
    match a {
      case ExecDo(x, act) => ExecDoKeepsSafe(s, x, act);
      case CallDo(c) => CallDoKeepsSafe(s, c);
      case OtherEvent(ev) => OtherEventKeepsSafe(s, ev);
      case Deliver(en, p, x) => ReceiveKeepsSafe(s, en, p, x);
      case Crash(p) => CrashKeepsSafe(s, p);
      case BeginRetry(_, _) => BeginKeepsSafe(s, a);
      case BeginCancel(_, _) => BeginKeepsSafe(s, a);
      case Reconcile(_, _) => BeginKeepsSafe(s, a);
      case _ => WorkerKeepsSafe(s, a);
    }
  }

  lemma NewTaskSafe(id: TaskId, p: Proc, c: CallId)
    ensures Safe(NewTask(id, p, c))
  {
  }
}
